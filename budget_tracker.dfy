/**
  The travel budget tracker: a list of expenses against a budget, with the total,
  what is left, a per-category breakdown and the three largest expenses.
  Amounts are whole numbers (for example cents).
 */
module BudgetTracker {
  import opened Lists

  datatype Category = Accommodation | Food | Transportation | Activities | Shopping | Other

  datatype Expense = Expense(id: string, description: string, amount: int, category: Category, date: string)

  /** The add-expense form: an expense without its id. */
  datatype ExpenseDraft = ExpenseDraft(description: string, amount: int, category: Category, date: string)

  function Amount(e: Expense): int
  {
    e.amount
  }

  function HasId(id: string): Expense -> bool
  {
    (e: Expense) => e.id == id
  }

  function LacksId(id: string): Expense -> bool
  {
    (e: Expense) => e.id != id
  }

  function InCategory(c: Category): Expense -> bool
  {
    (e: Expense) => e.category == c
  }

  // ---------------------------------------------------------------------------
  // Adding and removing

  /** Whether the form may be added: a description and a positive amount. */
  predicate CanAdd(draft: ExpenseDraft)
  {
    draft.description != "" && draft.amount > 0
  }

  /** `addExpense`'s effect on the list; `freshId` is the id built from the clock. */
  function WithExpense(expenses: seq<Expense>, draft: ExpenseDraft, freshId: string): (r: seq<Expense>)
    ensures |r| == |expenses| + (if CanAdd(draft) then 1 else 0)
    ensures r[..|expenses|] == expenses
  {
    if CanAdd(draft) then
      expenses + [Expense(freshId, draft.description, draft.amount, draft.category, draft.date)]
    else expenses
  }

  /**
    An incomplete form adds nothing. A complete one keeps every earlier expense in place
    and adds exactly one more at the end, carrying the form's fields and the fresh id.
   */
  lemma AddExpenseEffect(expenses: seq<Expense>, draft: ExpenseDraft, freshId: string)
    ensures var r := WithExpense(expenses, draft, freshId);
            (!CanAdd(draft) ==> r == expenses)
            && (CanAdd(draft) ==>
                  |r| == |expenses| + 1 && r[..|expenses|] == expenses
                  && r[|expenses|] == Expense(freshId, draft.description, draft.amount, draft.category, draft.date))
  {
  }

  /** The form after a successful add: empty, amount 0, category "other", dated `today`. */
  function ResetDraft(today: string): ExpenseDraft
  {
    ExpenseDraft("", 0, Other, today)
  }

  /** `removeExpense`: the expenses whose id differs from `id`. */
  function WithoutId(expenses: seq<Expense>, id: string): (r: seq<Expense>)
    ensures IsSubsequence(r, expenses)
    ensures forall e :: e in r ==> e.id != id
  {
    Filter(LacksId(id), expenses)
  }

  /**
    Removal drops every expense with the id and keeps each other expense, as often as
    it occurred and in its original order.
   */
  lemma RemoveExpenseEffect(expenses: seq<Expense>, id: string)
    ensures var r := WithoutId(expenses, id);
            IsSubsequence(r, expenses)
            && (forall e :: e in r ==> e.id != id)
            && forall e :: e in expenses && e.id != id ==> multiset(r)[e] == multiset(expenses)[e]
  {
  }

  // ---------------------------------------------------------------------------
  // Totals

  /** `totalExpenses`: the sum of all amounts. */
  function Total(expenses: seq<Expense>): (r: int)
    ensures (forall e :: e in expenses ==> e.amount >= 0) ==> r >= 0
  {
    if forall e :: e in expenses ==> e.amount >= 0 then
      SumNonNegative(Amount, expenses);
      Sum(Amount, expenses)
    else Sum(Amount, expenses)
  }

  /** `remainingBudget`. */
  function Remaining(budget: int, expenses: seq<Expense>): (r: int)
    ensures (forall e :: e in expenses ==> e.amount >= 0) ==> r <= budget
  {
    budget - Total(expenses)
  }

  /** An accepted expense raises the total by its amount and lowers what is left by as much. */
  lemma AddExpenseTotal(budget: int, expenses: seq<Expense>, draft: ExpenseDraft, freshId: string)
    ensures var r := WithExpense(expenses, draft, freshId);
            Total(r) == Total(expenses) + (if CanAdd(draft) then draft.amount else 0)
            && Remaining(budget, r) == Remaining(budget, expenses) - (if CanAdd(draft) then draft.amount else 0)
  {
    var e := Expense(freshId, draft.description, draft.amount, draft.category, draft.date);
    SumAppend(Amount, expenses, [e]);
    assert Sum(Amount, [e]) == e.amount;
  }

  /** Removing an id lowers the total by exactly the amounts of the expenses with that id. */
  lemma RemoveExpenseTotal(expenses: seq<Expense>, id: string)
    ensures Total(WithoutId(expenses, id)) + Sum(Amount, Filter(HasId(id), expenses)) == Total(expenses)
  {
    SumFilterSplit(Amount, LacksId(id), HasId(id), expenses);
  }

  // ---------------------------------------------------------------------------
  // The per-category breakdown

  /** A category's amount, 0 for a category with no entry (`expensesByCategory[category] || 0`). */
  function Get(m: map<Category, int>, c: Category): int
  {
    if c in m then m[c] else 0
  }

  /** The sum of the amounts of the expenses in category `c`. */
  function CategoryTotal(expenses: seq<Expense>, c: Category): int
  {
    Sum(Amount, Filter(InCategory(c), expenses))
  }

  /** One step of the `reduce`: adds the expense's amount to its category's entry. */
  function Tally(acc: map<Category, int>, e: Expense): map<Category, int>
  {
    acc[e.category := Get(acc, e.category) + e.amount]
  }

  function TallyAll(acc: map<Category, int>, expenses: seq<Expense>): map<Category, int>
    decreases |expenses|
  {
    if expenses == [] then acc else TallyAll(Tally(acc, expenses[0]), expenses[1..])
  }

  /** `expensesByCategory`: the `reduce` from the empty record. */
  function ByCategory(expenses: seq<Expense>): (r: map<Category, int>)
    ensures forall c :: Get(r, c) == CategoryTotal(expenses, c)
  {
    TallyAllFromEmpty(expenses);
    TallyAll(map[], expenses)
  }

  lemma TallyAllFromEmpty(expenses: seq<Expense>)
    ensures forall c :: Get(TallyAll(map[], expenses), c) == CategoryTotal(expenses, c)
  {
    forall c {
      TallyAllValues(map[], expenses, c);
    }
  }

  /** Folding the expenses into a record adds each category's total to its entry. */
  lemma {:induction false} TallyAllValues(acc: map<Category, int>, expenses: seq<Expense>, c: Category)
    ensures Get(TallyAll(acc, expenses), c) == Get(acc, c) + CategoryTotal(expenses, c)
    decreases |expenses|
  {
    if expenses != [] {
      var e, rest := expenses[0], expenses[1..];
      TallyAllValues(Tally(acc, e), rest, c);
      if e.category == c {
        assert Filter(InCategory(c), expenses) == [e] + Filter(InCategory(c), rest);
        assert ([e] + Filter(InCategory(c), rest))[1..] == Filter(InCategory(c), rest);
      }
    }
  }

  /** Folding the expenses into a record adds an entry for each category that occurs, and no other. */
  lemma {:induction false} TallyAllKeys(acc: map<Category, int>, expenses: seq<Expense>, c: Category)
    ensures c in TallyAll(acc, expenses) <==> c in acc || exists i :: 0 <= i < |expenses| && expenses[i].category == c
    decreases |expenses|
  {
    if expenses != [] {
      var e, rest := expenses[0], expenses[1..];
      TallyAllKeys(Tally(acc, e), rest, c);
      if exists i :: 0 <= i < |expenses| && expenses[i].category == c {
        var i :| 0 <= i < |expenses| && expenses[i].category == c;
        if i > 0 {
          assert rest[i - 1].category == c;
        }
      }
      if exists i :: 0 <= i < |rest| && rest[i].category == c {
        var i :| 0 <= i < |rest| && rest[i].category == c;
        assert expenses[i + 1].category == c;
      }
    }
  }

  /**
    The breakdown has an entry exactly for the categories that occur, and each entry is
    the sum of that category's amounts.
   */
  lemma ByCategoryEntries(expenses: seq<Expense>, c: Category)
    ensures Get(ByCategory(expenses), c) == CategoryTotal(expenses, c)
    ensures c in ByCategory(expenses) <==> exists i :: 0 <= i < |expenses| && expenses[i].category == c
  {
    TallyAllValues(map[], expenses, c);
    TallyAllKeys(map[], expenses, c);
  }

  /** The six categories, in the order the summary lists them. */
  function CategorySum(m: map<Category, int>): int
  {
    Get(m, Accommodation) + Get(m, Food) + Get(m, Transportation)
    + Get(m, Activities) + Get(m, Shopping) + Get(m, Other)
  }

  lemma {:induction false} CategoryTotalsAddUp(expenses: seq<Expense>)
    ensures CategoryTotal(expenses, Accommodation) + CategoryTotal(expenses, Food)
            + CategoryTotal(expenses, Transportation) + CategoryTotal(expenses, Activities)
            + CategoryTotal(expenses, Shopping) + CategoryTotal(expenses, Other) == Total(expenses)
    decreases |expenses|
  {
    if expenses != [] {
      var e, rest := expenses[0], expenses[1..];
      CategoryTotalsAddUp(rest);
      var kept := Filter(InCategory(e.category), rest);
      assert ([e] + kept)[1..] == kept;
    }
  }

  /** The breakdown's entries add up to the total. */
  lemma ByCategoryAddsUpToTotal(expenses: seq<Expense>)
    ensures CategorySum(ByCategory(expenses)) == Total(expenses)
  {
    ByCategoryEntries(expenses, Accommodation);
    ByCategoryEntries(expenses, Food);
    ByCategoryEntries(expenses, Transportation);
    ByCategoryEntries(expenses, Activities);
    ByCategoryEntries(expenses, Shopping);
    ByCategoryEntries(expenses, Other);
    CategoryTotalsAddUp(expenses);
  }

  // ---------------------------------------------------------------------------
  // The largest expenses

  /** Amounts never increase along the list. */
  predicate NonIncreasing(s: seq<Expense>)
  {
    forall i, j :: 0 <= i < j < |s| ==> s[i].amount >= s[j].amount
  }

  /** `e` placed before the first expense of `s` whose amount is not larger. */
  function InsertByAmount(e: Expense, s: seq<Expense>): (r: seq<Expense>)
    requires NonIncreasing(s)
    ensures NonIncreasing(r)
    ensures multiset(r) == multiset(s) + multiset{e}
    decreases |s|
  {
    if s == [] || s[0].amount <= e.amount then
      [e] + s
    else
      var rest := InsertByAmount(e, s[1..]);
      InsertBehindHead(e, s, rest);
      [s[0]] + rest
  }

  /** Placing `e` behind the head of `s`, which outweighs it, keeps the order. */
  lemma InsertBehindHead(e: Expense, s: seq<Expense>, rest: seq<Expense>)
    requires NonIncreasing(s) && s != [] && e.amount < s[0].amount
    requires NonIncreasing(rest) && multiset(rest) == multiset(s[1..]) + multiset{e}
    ensures NonIncreasing([s[0]] + rest)
    ensures multiset([s[0]] + rest) == multiset(s) + multiset{e}
  {
    assert s == [s[0]] + s[1..];
    forall i | 0 <= i < |rest|
      ensures rest[i].amount <= s[0].amount
    {
      assert rest[i] in multiset(rest);
      if rest[i] != e {
        var j := IndexOf(s[1..], rest[i]);
        assert s[j + 1] == rest[i];
      }
    }
    var r := [s[0]] + rest;
    assert forall i :: 1 <= i < |r| ==> r[i] == rest[i - 1];
  }

  /** `sort((a, b) => b.amount - a.amount)`: the expenses from largest to smallest amount. */
  function SortByAmount(s: seq<Expense>): (r: seq<Expense>)
    ensures NonIncreasing(r)
    ensures multiset(r) == multiset(s)
    decreases |s|
  {
    if s == [] then []
    else
      assert s == [s[0]] + s[1..];
      InsertByAmount(s[0], SortByAmount(s[1..]))
  }

  /** Whether an expense has amount `a`. */
  function HasAmount(a: int): Expense -> bool
  {
    (e: Expense) => e.amount == a
  }

  /**
    The sort is stable, as `Array.prototype.sort` is: for every amount, the expenses of
    that amount come out in the order they went in.
   */
  lemma {:induction false} SortByAmountIsStable(s: seq<Expense>, a: int)
    ensures Filter(HasAmount(a), SortByAmount(s)) == Filter(HasAmount(a), s)
    decreases |s|
  {
    if s != [] {
      SortByAmountIsStable(s[1..], a);
      InsertByAmountFilter(s[0], SortByAmount(s[1..]), a);
    }
  }

  /** Inserting `e` puts it ahead of every expense of the same amount. */
  lemma {:induction false} InsertByAmountFilter(e: Expense, s: seq<Expense>, a: int)
    requires NonIncreasing(s)
    ensures Filter(HasAmount(a), InsertByAmount(e, s))
            == (if e.amount == a then [e] else []) + Filter(HasAmount(a), s)
    decreases |s|
  {
    var p := HasAmount(a);
    if s == [] || s[0].amount <= e.amount {
      assert ([e] + s)[1..] == s;
    } else {
      var rest := InsertByAmount(e, s[1..]);
      InsertByAmountFilter(e, s[1..], a);
      assert ([s[0]] + rest)[1..] == rest;
    }
  }

  /** The "Top Expenses" list: the first three of the sorted expenses (`slice(0, 3)`). */
  function TopThree(expenses: seq<Expense>): (r: seq<Expense>)
    ensures |r| == if |expenses| < 3 then |expenses| else 3
    ensures NonIncreasing(r) && multiset(r) <= multiset(expenses)
  {
    var sorted := SortByAmount(expenses);
    var k := if |sorted| <= 3 then |sorted| else 3;
    PrefixDominates(sorted, k);
    assert |sorted| == |multiset(sorted)| == |expenses|;
    sorted[..k]
  }

  /**
    The top list has the three largest expenses, or all of them when there are fewer,
    from largest to smallest, each at least as large as every expense left out.
   */
  lemma TopExpensesAreLargest(expenses: seq<Expense>)
    ensures var top := TopThree(expenses);
            |top| == (if |expenses| < 3 then |expenses| else 3)
            && NonIncreasing(top)
            && multiset(top) <= multiset(expenses)
            && forall x, y :: x in top && y in multiset(expenses) - multiset(top) ==> x.amount >= y.amount
  {
    var sorted := SortByAmount(expenses);
    var k := if |sorted| <= 3 then |sorted| else 3;
    PrefixDominates(sorted, k);
    assert TopThree(expenses) == sorted[..k];
  }

  /** In a list sorted by amount, a prefix outweighs what it leaves out. */
  lemma PrefixDominates(sorted: seq<Expense>, k: nat)
    requires NonIncreasing(sorted) && k <= |sorted|
    ensures NonIncreasing(sorted[..k])
    ensures multiset(sorted[..k]) <= multiset(sorted)
    ensures forall x, y :: x in sorted[..k] && y in multiset(sorted) - multiset(sorted[..k]) ==> x.amount >= y.amount
  {
    var top, omitted := sorted[..k], sorted[k..];
    assert sorted == top + omitted;
    var rest := multiset(sorted) - multiset(top);
    assert rest == multiset(omitted) by {
      assert multiset(sorted) == multiset(top) + multiset(omitted);
    }
    forall x, y | x in top && y in rest
      ensures x.amount >= y.amount
    {
      assert y in omitted;
      var i, j := IndexOf(top, x), IndexOf(omitted, y);
      assert sorted[i] == x && sorted[k + j] == y;
    }
  }

  // ---------------------------------------------------------------------------
  // The tracker

  function InitialExpenses(): seq<Expense>
  {
    [ Expense("1", "Hotel booking", 750, Accommodation, "2023-06-10"),
      Expense("2", "Flight tickets", 450, Transportation, "2023-06-10"),
      Expense("3", "Restaurant dinner", 85, Food, "2023-06-12"),
      Expense("4", "Museum tickets", 40, Activities, "2023-06-13"),
      Expense("5", "Souvenir shopping", 65, Shopping, "2023-06-14") ]
  }

  /**
    The summary sorts the expense list itself, not a copy: the initial list is not in
    amount order ("Museum tickets", 40, comes before "Souvenir shopping", 65), so one
    render leaves the stored list, and the expense tab, reordered.
   */
  lemma RenderReordersInitialExpenses()
    ensures SortByAmount(InitialExpenses()) != InitialExpenses()
  {
    var s := InitialExpenses();
    assert s[3].amount < s[4].amount;
    assert !NonIncreasing(s);
  }

  class Tracker {
    var expenses: seq<Expense>
    var newExpense: ExpenseDraft
    var budget: int

    constructor (today: string)
      ensures expenses == InitialExpenses() && newExpense == ResetDraft(today) && budget == 2000
    {
      expenses := InitialExpenses();
      newExpense := ResetDraft(today);
      budget := 2000;
    }

    /** `addExpense`: appends the form as a new expense when it is complete, then resets the form. */
    method AddExpense(freshId: string, today: string)
      modifies this
      ensures expenses == WithExpense(old(expenses), old(newExpense), freshId)
      ensures newExpense == if CanAdd(old(newExpense)) then ResetDraft(today) else old(newExpense)
      ensures budget == old(budget)
    {
      if newExpense.description != "" && newExpense.amount > 0 {
        expenses := expenses + [Expense(freshId, newExpense.description, newExpense.amount,
                                        newExpense.category, newExpense.date)];
        newExpense := ResetDraft(today);
      }
    }

    method RemoveExpense(id: string)
      modifies this
      ensures expenses == WithoutId(old(expenses), id)
      ensures newExpense == old(newExpense) && budget == old(budget)
    {
      expenses := Filter(LacksId(id), expenses);
    }

    /**
      The "Top Expenses" list as the summary computes it: the stored list is sorted in
      place and its first three are shown.
     */
    method TopExpensesAsRendered() returns (top: seq<Expense>)
      modifies this
      ensures expenses == SortByAmount(old(expenses))
      ensures top == TopThree(old(expenses))
      ensures newExpense == old(newExpense) && budget == old(budget)
    {
      expenses := SortByAmount(expenses);
      top := if |expenses| <= 3 then expenses else expenses[..3];
    }

    /** The "Top Expenses" list computed from a copy, which leaves the stored list as it is. */
    method TopExpenses() returns (top: seq<Expense>)
      ensures top == TopThree(expenses)
    {
      var sorted := SortByAmount(expenses);
      top := if |sorted| <= 3 then sorted else sorted[..3];
    }
  }
}
