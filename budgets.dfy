/** The budget records of the client (`BudgetAmount`, `Budget`) and the two
    operations that build them from the library's raw per-month rows:
    grouping all rows by category (`get_budgets_sync`) and collecting the rows
    of one category (`get_budget_sync`). */
module Budgets {
  import opened Wrappers
  import opened Exceptions
  import Text

  /** An exact amount of money in hundredths of the currency unit. The source
      computes `float(cents) / 100`; here the value is kept as the cents. */
  datatype Hundredths = Hundredths(cents: int)

  datatype BudgetAmount = BudgetAmount(month: string, amount: Option<Hundredths>)

  datatype Budget = Budget(name: string, amounts: seq<BudgetAmount>, balance: Hundredths)

  /** One row returned by the library's `get_budgets`: its category's name
      (`None` when the row has no category), the budgeted amount in cents
      (possibly missing) and the month. */
  datatype RawBudget = RawBudget(category: Option<string>, amount: Option<int>, month: string)

  /** `None if not amount else float(amount) / 100`: a missing or zero amount
      becomes `None`, any other one the same number of hundredths. */
  function NormaliseAmount(amount: Option<int>): (r: Option<Hundredths>)
    ensures r.None? <==> amount.None? || amount.value == 0
    ensures r.Some? ==> amount == Some(r.value.cents)
  {
    match amount
    case None => None
    case Some(c) => if c == 0 then None else Some(Hundredths(c))
  }

  function ToAmount(row: RawBudget): BudgetAmount {
    BudgetAmount(row.month, NormaliseAmount(row.amount))
  }

  /** `category_data.balance if category_data else Decimal(0)`, with the
      library's `get_category` given as the balances of the categories it knows. */
  function BalanceOf(categories: map<string, Hundredths>, name: string): (r: Hundredths)
    ensures name in categories ==> r == categories[name]
    ensures name !in categories ==> r == Hundredths(0)
  {
    if name in categories then categories[name] else Hundredths(0)
  }

  // ---------------------------------------------------------------------
  // Python's `sorted(amounts, key=lambda x: x.month)`: a stable sort

  predicate SortedByMonth(xs: seq<BudgetAmount>) {
    forall i, j :: 0 <= i < j < |xs| ==> Text.LexLe(xs[i].month, xs[j].month)
  }

  /** The entries for one month, in their order. A sort is stable exactly when
      it keeps this subsequence for every month. */
  function WithMonth(xs: seq<BudgetAmount>, m: string): seq<BudgetAmount> {
    if xs == [] then []
    else (if xs[0].month == m then [xs[0]] else []) + WithMonth(xs[1..], m)
  }

  /** Inserts `x` before the first entry whose month is not smaller. */
  function InsertByMonth(x: BudgetAmount, xs: seq<BudgetAmount>): seq<BudgetAmount> {
    if xs == [] || Text.LexLe(x.month, xs[0].month) then [x] + xs
    else [xs[0]] + InsertByMonth(x, xs[1..])
  }

  lemma {:induction false} InsertPermutes(x: BudgetAmount, xs: seq<BudgetAmount>)
    ensures multiset(InsertByMonth(x, xs)) == multiset(xs) + multiset{x}
  {
    if xs != [] && !Text.LexLe(x.month, xs[0].month) {
      InsertPermutes(x, xs[1..]);
      assert xs == [xs[0]] + xs[1..];
    }
  }

  /** `[x] + xs` stays sorted when `x` is no later than anything in `xs`. */
  lemma SortedCons(x: BudgetAmount, xs: seq<BudgetAmount>)
    requires SortedByMonth(xs)
    requires forall y | y in multiset(xs) :: Text.LexLe(x.month, y.month)
    ensures SortedByMonth([x] + xs)
  {
    var r := [x] + xs;
    forall i, j | 0 <= i < j < |r| ensures Text.LexLe(r[i].month, r[j].month) {
      if i == 0 {
        assert r[j] in multiset(xs);
      } else {
        assert r[i] == xs[i - 1] && r[j] == xs[j - 1];
      }
    }
  }

  lemma {:induction false} InsertKeepsSorted(x: BudgetAmount, xs: seq<BudgetAmount>)
    requires SortedByMonth(xs)
    ensures SortedByMonth(InsertByMonth(x, xs))
  {
    if xs == [] || Text.LexLe(x.month, xs[0].month) {
      forall y | y in multiset(xs) ensures Text.LexLe(x.month, y.month) {
        var k :| 0 <= k < |xs| && xs[k] == y;
        if k > 0 {
          Text.LexLeTransitive(x.month, xs[0].month, y.month);
        }
      }
      SortedCons(x, xs);
    } else {
      var tail := xs[1..];
      assert SortedByMonth(tail) by {
        forall i, j | 0 <= i < j < |tail| ensures Text.LexLe(tail[i].month, tail[j].month) {
          assert tail[i] == xs[i + 1] && tail[j] == xs[j + 1];
        }
      }
      InsertKeepsSorted(x, tail);
      InsertPermutes(x, tail);
      Text.LexLeTotal(x.month, xs[0].month);
      forall y | y in multiset(InsertByMonth(x, tail)) ensures Text.LexLe(xs[0].month, y.month) {
        if y != x {
          assert y in multiset(tail);
          var k :| 0 <= k < |tail| && tail[k] == y;
          assert xs[k + 1] == y;
        }
      }
      SortedCons(xs[0], InsertByMonth(x, tail));
    }
  }

  lemma {:induction false} InsertIsStable(x: BudgetAmount, xs: seq<BudgetAmount>, m: string)
    ensures WithMonth(InsertByMonth(x, xs), m)
         == if x.month == m then [x] + WithMonth(xs, m) else WithMonth(xs, m)
  {
    if xs == [] || Text.LexLe(x.month, xs[0].month) {
      assert ([x] + xs)[1..] == xs;
    } else {
      var rest := InsertByMonth(x, xs[1..]);
      InsertIsStable(x, xs[1..], m);
      Text.LexLeReflexive(x.month);
      assert ([xs[0]] + rest)[1..] == rest;
    }
  }

  /** The model of `sorted(..., key=lambda x: x.month)`: ordered by month, a
      permutation of its input, and stable. */
  function SortByMonth(xs: seq<BudgetAmount>): (r: seq<BudgetAmount>)
    ensures SortedByMonth(r)
    ensures multiset(r) == multiset(xs) && |r| == |xs|
    ensures forall m :: WithMonth(r, m) == WithMonth(xs, m)
  {
    if xs == [] then []
    else
      var sortedTail := SortByMonth(xs[1..]);
      InsertKeepsSorted(xs[0], sortedTail);
      InsertPermutes(xs[0], sortedTail);
      assert xs == [xs[0]] + xs[1..];
      assert forall m :: WithMonth(InsertByMonth(xs[0], sortedTail), m) == WithMonth(xs, m) by {
        forall m ensures WithMonth(InsertByMonth(xs[0], sortedTail), m) == WithMonth(xs, m) {
          InsertIsStable(xs[0], sortedTail, m);
        }
      }
      InsertByMonth(xs[0], sortedTail)
  }

  // ---------------------------------------------------------------------
  // get_budgets_sync: group the rows by category

  predicate Distinct(names: seq<string>) {
    forall i, j :: 0 <= i < j < |names| ==> names[i] != names[j]
  }

  /** Some row of `raw` belongs to the category `name`. */
  predicate Occurs(raw: seq<RawBudget>, name: string) {
    exists i :: 0 <= i < |raw| && raw[i].category == Some(name)
  }

  lemma OccursStep(raw: seq<RawBudget>, name: string)
    requires raw != []
    ensures Occurs(raw, name) <==> Occurs(raw[..|raw| - 1], name) || raw[|raw| - 1].category == Some(name)
  {
    var init := raw[..|raw| - 1];
    if Occurs(init, name) {
      var i :| 0 <= i < |init| && init[i].category == Some(name);
      assert raw[i] == init[i];
    }
    if Occurs(raw, name) && raw[|raw| - 1].category != Some(name) {
      var i :| 0 <= i < |raw| && raw[i].category == Some(name);
      assert init[i] == raw[i];
    }
  }

  /** The keys of the `budgets` dict, in insertion order: each category name
      once, where its first row stands. */
  function CategoryNames(raw: seq<RawBudget>): (names: seq<string>)
    ensures Distinct(names)
  {
    if raw == [] then []
    else
      var row := raw[|raw| - 1];
      var names := CategoryNames(raw[..|raw| - 1]);
      if row.category.Some? && row.category.value !in names then names + [row.category.value]
      else names
  }

  /** A name is a key of the dict exactly when some row has that category. */
  lemma {:induction false} CategoryNamesListed(raw: seq<RawBudget>, name: string)
    ensures name in CategoryNames(raw) <==> Occurs(raw, name)
  {
    if raw != [] {
      CategoryNamesListed(raw[..|raw| - 1], name);
      OccursStep(raw, name);
    }
  }

  /** The amounts of the rows of category `name`, in row order: what the first
      loop appends to `budgets[name].amounts`. */
  function AmountsIn(raw: seq<RawBudget>, name: string): seq<BudgetAmount> {
    if raw == [] then []
    else
      var row := raw[|raw| - 1];
      AmountsIn(raw[..|raw| - 1], name) + (if row.category == Some(name) then [ToAmount(row)] else [])
  }

  /** The finished `Budget` of one category. */
  function BudgetFor(raw: seq<RawBudget>, categories: map<string, Hundredths>, name: string): Budget {
    Budget(name, SortByMonth(AmountsIn(raw, name)), BalanceOf(categories, name))
  }

  /** The list `get_budgets_sync` returns, given the library's rows and
      categories. */
  function GroupBudgets(raw: seq<RawBudget>, categories: map<string, Hundredths>): (r: seq<Budget>)
    ensures |r| == |CategoryNames(raw)|
    ensures forall i :: 0 <= i < |r| ==> r[i].name == CategoryNames(raw)[i]
  {
    var names := CategoryNames(raw);
    seq(|names|, i requires 0 <= i < |names| => BudgetFor(raw, categories, names[i]))
  }

  /** The library's `get_category` raises `failing[name]` for the names in
      `failing`; over the names in order, the exception of the first such
      name, if any. */
  function FirstFailure(names: seq<string>, failing: map<string, Exception>): Option<Exception> {
    if names == [] then None
    else if names[0] in failing then Some(failing[names[0]])
    else FirstFailure(names[1..], failing)
  }

  /** `FirstFailure` finds the exception of the earliest failing name, and
      finds none exactly when no name fails. */
  lemma {:induction false} FirstFailureIsFirst(names: seq<string>, failing: map<string, Exception>)
    ensures FirstFailure(names, failing).None? <==> forall i :: 0 <= i < |names| ==> names[i] !in failing
    ensures FirstFailure(names, failing).Some? ==>
      exists i :: 0 <= i < |names| && names[i] in failing && FirstFailure(names, failing).value == failing[names[i]]
                  && forall j :: 0 <= j < i ==> names[j] !in failing
  {
    if names != [] && names[0] !in failing {
      FirstFailureIsFirst(names[1..], failing);
      assert forall i :: 1 <= i < |names| ==> names[i] == names[1..][i - 1];
      if FirstFailure(names, failing).Some? {
        var i :| 0 <= i < |names[1..]| && names[1..][i] in failing && FirstFailure(names, failing).value == failing[names[1..][i]]
                 && forall j :: 0 <= j < i ==> names[1..][j] !in failing;
        assert names[i + 1] in failing && forall j :: 0 <= j < i + 1 ==> names[j] !in failing;
      }
    }
  }

  /** The exception of a failing name that no earlier name precedes is the
      first failure. */
  lemma {:induction false} FirstFailureAt(names: seq<string>, k: nat, failing: map<string, Exception>)
    requires k < |names| && names[k] in failing
    requires forall j :: 0 <= j < k ==> names[j] !in failing
    ensures FirstFailure(names, failing) == Some(failing[names[k]])
  {
    if k > 0 {
      assert forall j :: 0 <= j < k - 1 ==> names[1..][j] == names[j + 1];
      FirstFailureAt(names[1..], k - 1, failing);
    }
  }

  /** The two loops of `get_budgets_sync` over a dict that keeps insertion
      order, modelled as its keys in order plus a map. `categories` holds the
      balances `get_category` finds; for the names in `failing` it raises. */
  method CollectBudgets(raw: seq<RawBudget>, categories: map<string, Hundredths>, failing: map<string, Exception>)
    returns (r: Result<seq<Budget>, Exception>)
    ensures r.Failure? <==> FirstFailure(CategoryNames(raw), failing).Some?
    ensures r.Failure? ==> r.error == FirstFailure(CategoryNames(raw), failing).value
    ensures r.Success? ==> r.value == GroupBudgets(raw, categories)
  {
    var order, groups := GroupRows(raw);
    r := FinishBudgets(raw, categories, failing, order, groups);
  }

  /** The first loop of `get_budgets_sync`: rows without a category are
      skipped, each other row's amount is appended to its category's entry,
      created empty when the category is first seen. */
  method GroupRows(raw: seq<RawBudget>) returns (order: seq<string>, groups: map<string, Budget>)
    ensures order == CategoryNames(raw)
    ensures forall n :: n in groups <==> n in order
    ensures forall n :: n in groups ==> groups[n] == Budget(n, AmountsIn(raw, n), Hundredths(0))
  {
    order := [];
    groups := map[];
    var i := 0;
    while i < |raw|
      invariant 0 <= i <= |raw|
      invariant order == CategoryNames(raw[..i])
      invariant forall n :: n in groups <==> n in order
      invariant forall n :: n in groups ==> groups[n] == Budget(n, AmountsIn(raw[..i], n), Hundredths(0))
    {
      PrefixStep(raw, i);
      var row := raw[i];
      if row.category.Some? {
        var category := row.category.value;
        var amount := BudgetAmount(row.month, NormaliseAmount(row.amount));
        if category !in groups {
          CategoryNamesListed(raw[..i], category);
          AmountsAbsent(raw[..i], category);
          groups := groups[category := Budget(category, [], Hundredths(0))];
          order := order + [category];
        }
        groups := groups[category := groups[category].(amounts := groups[category].amounts + [amount])];
      }
      i := i + 1;
    }
    assert raw[..|raw|] == raw;
  }

  /** The second loop of `get_budgets_sync`: sort each category's amounts by
      month and look up its balance, then list the dict's values in order. The
      first lookup that raises ends the loop with its exception. */
  method FinishBudgets(raw: seq<RawBudget>, categories: map<string, Hundredths>, failing: map<string, Exception>,
                       order: seq<string>, collected: map<string, Budget>)
    returns (r: Result<seq<Budget>, Exception>)
    requires Distinct(order)
    requires forall n :: n in collected <==> n in order
    requires forall n :: n in collected ==> collected[n] == Budget(n, AmountsIn(raw, n), Hundredths(0))
    ensures r.Failure? <==> FirstFailure(order, failing).Some?
    ensures r.Failure? ==> r.error == FirstFailure(order, failing).value
    ensures r.Success? ==> |r.value| == |order|
    ensures r.Success? ==> forall j :: 0 <= j < |order| ==> r.value[j] == BudgetFor(raw, categories, order[j])
  {
    var groups := collected;
    var k := 0;
    while k < |order|
      invariant 0 <= k <= |order|
      invariant forall j :: 0 <= j < k ==> order[j] !in failing
      invariant forall j :: 0 <= j < |order| ==> order[j] in groups
      invariant forall j :: 0 <= j < k ==> groups[order[j]] == BudgetFor(raw, categories, order[j])
      invariant forall j :: k <= j < |order| ==> groups[order[j]] == collected[order[j]]
    {
      var category := order[k];
      if category in failing {
        FirstFailureAt(order, k, failing);
        return Failure(failing[category]);
      }
      var finished := FinishGroup(raw, categories, groups[category]);
      assert forall j :: 0 <= j < |order| && j != k ==> order[j] != category;
      groups := groups[category := finished];
      k := k + 1;
    }
    FirstFailureIsFirst(order, failing);
    return Success(seq(|order|, j requires 0 <= j < |order| => groups[order[j]]));
  }

  /** One step of the second loop: the group's amounts sorted by month and its
      balance looked up. */
  method FinishGroup(raw: seq<RawBudget>, categories: map<string, Hundredths>, group: Budget)
    returns (finished: Budget)
    requires group == Budget(group.name, AmountsIn(raw, group.name), Hundredths(0))
    ensures finished == BudgetFor(raw, categories, group.name)
  {
    var sorted := SortByMonth(group.amounts);
    var balance := if group.name in categories then categories[group.name] else Hundredths(0);
    finished := group.(amounts := sorted, balance := balance);
  }

  /** One more row: how the dict's keys and the collected amounts grow. */
  lemma PrefixStep(raw: seq<RawBudget>, i: nat)
    requires i < |raw|
    ensures CategoryNames(raw[..i + 1])
         == if raw[i].category.Some? && raw[i].category.value !in CategoryNames(raw[..i])
            then CategoryNames(raw[..i]) + [raw[i].category.value]
            else CategoryNames(raw[..i])
    ensures forall n ::
      AmountsIn(raw[..i + 1], n) == AmountsIn(raw[..i], n) + (if raw[i].category == Some(n) then [ToAmount(raw[i])] else [])
  {
    assert raw[..i + 1][..i] == raw[..i];
  }

  /** A category without rows has collected no amounts. */
  lemma {:induction false} AmountsAbsent(raw: seq<RawBudget>, name: string)
    requires !Occurs(raw, name)
    ensures AmountsIn(raw, name) == []
  {
    if raw != [] {
      OccursStep(raw, name);
      AmountsAbsent(raw[..|raw| - 1], name);
    }
  }

  // ---------------------------------------------------------------------
  // What get_budgets_sync promises

  /** Each group is named by a category that has rows, its amounts are those
      rows' amounts ordered by month (ties in row order), and its balance is
      the category's or 0. */
  lemma GroupedBudget(raw: seq<RawBudget>, categories: map<string, Hundredths>, i: nat)
    requires i < |GroupBudgets(raw, categories)|
    ensures var b := GroupBudgets(raw, categories)[i];
      && b.name == CategoryNames(raw)[i]
      && Occurs(raw, b.name)
      && SortedByMonth(b.amounts)
      && multiset(b.amounts) == multiset(AmountsIn(raw, b.name))
      && (forall m :: WithMonth(b.amounts, m) == WithMonth(AmountsIn(raw, b.name), m))
      && b.balance == BalanceOf(categories, b.name)
  {
    CategoryNamesListed(raw, CategoryNames(raw)[i]);
  }

  /** No two groups share a name. */
  lemma GroupNamesDistinct(raw: seq<RawBudget>, categories: map<string, Hundredths>, i: nat, j: nat)
    requires i < j < |GroupBudgets(raw, categories)|
    ensures GroupBudgets(raw, categories)[i].name != GroupBudgets(raw, categories)[j].name
  {
  }

  /** Every category that has a row gets a group. */
  lemma EveryCategoryGrouped(raw: seq<RawBudget>, categories: map<string, Hundredths>, k: nat)
    requires k < |raw| && raw[k].category.Some?
    ensures exists i :: 0 <= i < |GroupBudgets(raw, categories)| && GroupBudgets(raw, categories)[i].name == raw[k].category.value
  {
    var name := raw[k].category.value;
    CategoryNamesListed(raw, name);
    var i :| 0 <= i < |CategoryNames(raw)| && CategoryNames(raw)[i] == name;
    assert GroupBudgets(raw, categories)[i].name == name;
  }

  /** `a`'s first row stands before every row of `b`. */
  predicate FirstBefore(raw: seq<RawBudget>, a: string, b: string) {
    exists p :: 0 <= p < |raw| && raw[p].category == Some(a) && forall q :: 0 <= q <= p ==> raw[q].category != Some(b)
  }

  /** The groups come in the order of their categories' first rows (a dict
      keeps insertion order). */
  lemma {:induction false} GroupOrderIsFirstOccurrence(raw: seq<RawBudget>, i: nat, j: nat)
    requires i < j < |CategoryNames(raw)|
    ensures FirstBefore(raw, CategoryNames(raw)[i], CategoryNames(raw)[j])
  {
    var init := raw[..|raw| - 1];
    var a, b := CategoryNames(raw)[i], CategoryNames(raw)[j];
    var p: nat;
    if j < |CategoryNames(init)| {
      GroupOrderIsFirstOccurrence(init, i, j);
      p :| 0 <= p < |init| && init[p].category == Some(a) && forall q :: 0 <= q <= p ==> init[q].category != Some(b);
    } else {
      CategoryNamesListed(init, a);
      CategoryNamesListed(init, b);
      p :| 0 <= p < |init| && init[p].category == Some(a);
    }
    assert forall q :: 0 <= q <= p ==> raw[q] == init[q];
    assert raw[p].category == Some(a);
  }

  /** How many rows have a category. */
  function CategorisedCount(raw: seq<RawBudget>): nat {
    if raw == [] then 0
    else CategorisedCount(raw[..|raw| - 1]) + (if raw[|raw| - 1].category.Some? then 1 else 0)
  }

  /** How many amounts a list of budgets holds altogether. */
  function TotalAmounts(budgets: seq<Budget>): nat {
    if budgets == [] then 0
    else TotalAmounts(budgets[..|budgets| - 1]) + |budgets[|budgets| - 1].amounts|
  }

  /** How many amounts the first loop collects for the given names. */
  function CollectedCount(raw: seq<RawBudget>, names: seq<string>): nat {
    if names == [] then 0
    else CollectedCount(raw, names[..|names| - 1]) + |AmountsIn(raw, names[|names| - 1])|
  }

  lemma {:induction false} TotalOfFinished(raw: seq<RawBudget>, categories: map<string, Hundredths>, names: seq<string>)
    ensures TotalAmounts(seq(|names|, i requires 0 <= i < |names| => BudgetFor(raw, categories, names[i])))
         == CollectedCount(raw, names)
  {
    if names != [] {
      var init := names[..|names| - 1];
      var all := seq(|names|, i requires 0 <= i < |names| => BudgetFor(raw, categories, names[i]));
      assert all[..|all| - 1] == seq(|init|, i requires 0 <= i < |init| => BudgetFor(raw, categories, init[i]));
      TotalOfFinished(raw, categories, init);
    }
  }

  /** One more row adds one amount, to the one group its category names. */
  lemma {:induction false} CollectedCountStep(raw: seq<RawBudget>, names: seq<string>)
    requires raw != [] && Distinct(names)
    ensures var category := raw[|raw| - 1].category;
      CollectedCount(raw, names)
      == CollectedCount(raw[..|raw| - 1], names) + (if category.Some? && category.value in names then 1 else 0)
  {
    if names != [] {
      var init := names[..|names| - 1];
      assert Distinct(init);
      CollectedCountStep(raw, init);
      assert names == init + [names[|names| - 1]];
    }
  }

  lemma {:induction false} CategorisedCountIsCollected(raw: seq<RawBudget>)
    ensures CollectedCount(raw, CategoryNames(raw)) == CategorisedCount(raw)
  {
    if raw != [] {
      var init := raw[..|raw| - 1];
      var row := raw[|raw| - 1];
      var names := CategoryNames(init);
      CategorisedCountIsCollected(init);
      CollectedCountStep(raw, names);
      if row.category.Some? && row.category.value !in names {
        var c := row.category.value;
        CategoryNamesListed(init, c);
        AmountsAbsent(init, c);
        assert (names + [c])[..|names|] == names;
      }
    }
  }

  /** Every row with a category contributes exactly one amount: the groups
      hold as many amounts as there are categorised rows. */
  lemma GroupedAmountCount(raw: seq<RawBudget>, categories: map<string, Hundredths>)
    ensures TotalAmounts(GroupBudgets(raw, categories)) == CategorisedCount(raw)
  {
    TotalOfFinished(raw, categories, CategoryNames(raw));
    CategorisedCountIsCollected(raw);
  }

  // ---------------------------------------------------------------------
  // get_budget_sync: the rows of one category

  /** The amounts of all rows, in row order. */
  function AllAmounts(raw: seq<RawBudget>): (r: seq<BudgetAmount>)
    ensures |r| == |raw|
    ensures forall i :: 0 <= i < |raw| ==> r[i] == ToAmount(raw[i])
  {
    if raw == [] then [] else AllAmounts(raw[..|raw| - 1]) + [ToAmount(raw[|raw| - 1])]
  }

  /** `get_budget_sync` after the session is obtained: `raw` is what the library
      returns for the category `name`. No rows means "not found"; a raising
      category lookup (`name in failing`) raises on; otherwise every row's
      amount, ordered by month, under the given name, with the category's
      balance or 0. */
  method CollectBudget(name: string, raw: seq<RawBudget>, categories: map<string, Hundredths>,
                       failing: map<string, Exception>)
    returns (r: Result<Budget, Exception>)
    ensures r.Failure? <==> raw == [] || name in failing
    ensures raw == [] ==> r == Failure(BudgetNotFound(name))
    ensures raw != [] && name in failing ==> r == Failure(failing[name])
    ensures r.Success? ==> r.value == Budget(name, SortByMonth(AllAmounts(raw)), BalanceOf(categories, name))
  {
    if |raw| == 0 {
      return Failure(BudgetNotFound(name));
    }
    var budget := Budget(name, [], Hundredths(0));
    var i := 0;
    while i < |raw|
      invariant 0 <= i <= |raw|
      invariant budget == Budget(name, AllAmounts(raw[..i]), Hundredths(0))
    {
      assert raw[..i + 1][..i] == raw[..i];
      var row := raw[i];
      budget := budget.(amounts := budget.amounts + [BudgetAmount(row.month, NormaliseAmount(row.amount))]);
      i := i + 1;
    }
    assert raw[..|raw|] == raw;
    budget := budget.(amounts := SortByMonth(budget.amounts));
    if name in failing {
      return Failure(failing[name]);
    }
    budget := budget.(balance := if name in categories then categories[name] else Hundredths(0));
    return Success(budget);
  }
}
