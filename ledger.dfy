/** `ExpenseViewModel`: the ledger of expenses, its persisted snapshot and its
    queries. */
module Ledger {
  import opened Wrappers
  import opened Platform
  import opened ExpenseModel
  import opened Aggregation

  /** What the key-value store holds under the key "expenses". */
  datatype Snapshot =
    | Missing                          // nothing stored yet
    | Undecodable                      // stored data that does not decode as a list of expenses
    | Saved(records: seq<Expense>)     // an encoded list

  /** `JSONDecoder().decode([Expense].self, from:)` applied to the stored data. */
  function Decode(s: Snapshot): (r: Option<seq<Expense>>)
    ensures r.Some? <==> s.Saved?
    ensures s.Saved? ==> r.value == s.records
  {
    match s
    case Saved(xs) => Some(xs)
    case _ => None
  }

  /** No two records share an identifier. */
  ghost predicate UniqueIds(xs: seq<Expense>) {
    forall i, j :: 0 <= i < j < |xs| ==> xs[i].id != xs[j].id
  }

  ghost function Ids(xs: seq<Expense>): set<Uuid> {
    set i | 0 <= i < |xs| :: xs[i].id
  }

  /** Appending a record with an identifier not yet in use keeps identifiers unique. */
  lemma AppendFreshKeepsUniqueIds(xs: seq<Expense>, e: Expense)
    requires UniqueIds(xs) && e.id !in Ids(xs)
    ensures UniqueIds(xs + [e])
  {
    var ys := xs + [e];
    forall i, j | 0 <= i < j < |ys| ensures ys[i].id != ys[j].id {
      if j == |xs| {
        assert ys[i].id == xs[i].id;
        assert xs[i].id in Ids(xs);
      } else {
        assert ys[i] == xs[i] && ys[j] == xs[j];
      }
    }
  }

  /** Removing records keeps identifiers unique. */
  lemma RemoveAtKeepsUniqueIds(xs: seq<Expense>, offsets: set<nat>)
    requires UniqueIds(xs)
    ensures UniqueIds(RemoveAt(xs, offsets))
  {
    RemoveAtSelects(xs, offsets);
  }

  /** `for expense in xs { totals[key(expense), default: 0] += expense.amount }`: the
      loop shared by the `totalPer…` queries. */
  method SumBy<K>(xs: seq<Expense>, key: Expense -> K) returns (totals: map<K, int>)
    ensures totals == GroupTotals(xs, key)
    ensures totals.Keys == KeysOf(xs, key)
    ensures forall k :: k in totals ==> totals[k] == Total(Where(xs, HasKey(key, k)))
    ensures MapSum(totals) == Total(xs)
  {
    totals := map[];
    var i := 0;
    while i < |xs|
      invariant 0 <= i <= |xs|
      invariant totals == GroupTotals(xs[..i], key)
    {
      var expense := xs[i];
      assert xs[..i + 1] == xs[..i] + [expense];
      InitOfAppend(xs[..i], expense);
      totals := totals[key(expense) := (if key(expense) in totals then totals[key(expense)] else 0) + expense.amount];
      i := i + 1;
    }
    assert xs[..|xs|] == xs;
    GroupKeys(xs, key);
    forall k | k in totals ensures totals[k] == Total(Where(xs, HasKey(key, k))) {
      GroupValue(xs, key, k);
    }
    GroupSum(xs, key);
  }

  function ByCategory(): Expense -> Category {
    (e: Expense) => e.category
  }

  function ByDay(fmt: Formatters): Expense -> string {
    (e: Expense) => fmt.shortDay(e.date)
  }

  function ByWeek(cal: Calendar): Expense -> string {
    (e: Expense) => WeekKey(cal, e.date)
  }

  function ByMonth(cal: Calendar): Expense -> string {
    (e: Expense) => MonthKey(cal, e.date)
  }

  function ByYear(cal: Calendar): Expense -> string {
    (e: Expense) => YearKey(cal, e.date)
  }

  /** The records dated in the same week as `d`. */
  function InWeekOf(cal: Calendar, d: Date): Expense -> bool {
    (e: Expense) => cal.sameWeek(e.date, d)
  }

  class ExpenseViewModel {
    /** The ledger, in insertion order. */
    var expenses: seq<Expense>
    /** The store's entry under "expenses". */
    var persisted: Snapshot

    /** The stored snapshot is the in-memory list, except when nothing decodable was
        ever stored and nothing has been changed since: then the list is empty. */
    ghost predicate Valid()
      reads this
    {
      persisted == Saved(expenses) || (expenses == [] && Decode(persisted) == None)
    }

    /** Whatever has happened to the ledger, reading the store back gives the ledger:
        every change was saved, and an empty ledger that was never saved reads back
        as empty. */
    lemma ReloadRecoversLedger()
      requires Valid()
      ensures Decode(persisted).GetOr([]) == expenses
    {
    }

    /** `init()`: starts empty and loads the stored list. */
    constructor (stored: Snapshot)
      ensures Valid()
      ensures expenses == Decode(stored).GetOr([])
      ensures persisted == stored
    {
      expenses := [];
      persisted := stored;
      new;
      LoadExpenses();
    }

    /** `saveExpenses()`: re-encodes the whole list. */
    method SaveExpenses()
      modifies this
      ensures expenses == old(expenses)
      ensures persisted == Saved(expenses)
    {
      persisted := Saved(expenses);
    }

    /** An assignment to `expenses`, which runs its `didSet` observer. */
    method SetExpenses(xs: seq<Expense>)
      modifies this
      ensures expenses == xs
      ensures persisted == Saved(xs)
      ensures Valid()
    {
      expenses := xs;
      SaveExpenses();
    }

    /** `loadExpenses()`: adopts the stored list when there is one that decodes, and
        otherwise leaves the ledger as it is. */
    method LoadExpenses()
      modifies this
      ensures Decode(old(persisted)).Some? ==> expenses == Decode(old(persisted)).value
      ensures Decode(old(persisted)).None? ==> expenses == old(expenses)
      ensures persisted == old(persisted)
    {
      match Decode(persisted)
      case Some(decoded) =>
        SetExpenses(decoded);
      case None =>
    }

    /** `addExpense(title:amount:category:)`: appends one record dated `now` with the
        fresh identifier `id` (the `UUID()` and `Date()` the app draws). */
    method AddExpense(title: string, amount: Amount, category: Category, id: Uuid, now: Date)
      requires Valid()
      modifies this
      ensures Valid()
      ensures expenses == old(expenses) + [Expense(id, title, amount, category, now)]
      ensures |expenses| == |old(expenses)| + 1
      ensures persisted == Saved(expenses)
      ensures UniqueIds(old(expenses)) && id !in Ids(old(expenses)) ==> UniqueIds(expenses)
    {
      var newExpense := Expense(id, title, amount, category, now);
      if UniqueIds(expenses) && id !in Ids(expenses) {
        AppendFreshKeepsUniqueIds(expenses, newExpense);
      }
      SetExpenses(expenses + [newExpense]);
    }

    /** `deleteExpense(at:)`: removes the records at `offsets`, which must be positions
        of the list (`remove(atOffsets:)` traps otherwise). */
    method DeleteExpense(offsets: set<nat>)
      requires Valid()
      requires forall o :: o in offsets ==> o < |expenses|
      modifies this
      ensures Valid()
      ensures expenses == RemoveAt(old(expenses), offsets)
      ensures |expenses| == |old(expenses)| - |offsets|
      ensures persisted == Saved(expenses)
      ensures UniqueIds(old(expenses)) ==> UniqueIds(expenses)
    {
      RemoveAtSelects(expenses, offsets);
      assert OffsetsBelow(|expenses|, offsets) == offsets;
      if UniqueIds(expenses) {
        RemoveAtKeepsUniqueIds(expenses, offsets);
      }
      SetExpenses(RemoveAt(expenses, offsets));
    }

    /** `totalPerCategory()`. */
    method TotalPerCategory() returns (totals: map<Category, int>)
      ensures totals == GroupTotals(expenses, ByCategory())
      ensures totals.Keys == KeysOf(expenses, ByCategory())
      ensures forall c :: c in totals ==> totals[c] == Total(Where(expenses, HasKey(ByCategory(), c)))
      ensures MapSum(totals) == Total(expenses)
    {
      totals := SumBy(expenses, ByCategory());
    }

    /** `totalPerDay()`, keyed by the short localized date. */
    method TotalPerDay(fmt: Formatters) returns (result: map<string, int>)
      ensures result == GroupTotals(expenses, ByDay(fmt))
      ensures result.Keys == KeysOf(expenses, ByDay(fmt))
      ensures forall k :: k in result ==> result[k] == Total(Where(expenses, HasKey(ByDay(fmt), k)))
      ensures MapSum(result) == Total(expenses)
    {
      result := SumBy(expenses, ByDay(fmt));
    }

    /** `totalPerWeek()`. */
    method TotalPerWeek(cal: Calendar) returns (result: map<string, int>)
      ensures result == GroupTotals(expenses, ByWeek(cal))
      ensures result.Keys == KeysOf(expenses, ByWeek(cal))
      ensures forall k :: k in result ==> result[k] == Total(Where(expenses, HasKey(ByWeek(cal), k)))
      ensures MapSum(result) == Total(expenses)
    {
      result := SumBy(expenses, ByWeek(cal));
    }

    /** `totalPerMonth()`. */
    method TotalPerMonth(cal: Calendar) returns (result: map<string, int>)
      ensures result == GroupTotals(expenses, ByMonth(cal))
      ensures result.Keys == KeysOf(expenses, ByMonth(cal))
      ensures forall k :: k in result ==> result[k] == Total(Where(expenses, HasKey(ByMonth(cal), k)))
      ensures MapSum(result) == Total(expenses)
    {
      result := SumBy(expenses, ByMonth(cal));
    }

    /** `totalPerYear()`. */
    method TotalPerYear(cal: Calendar) returns (result: map<string, int>)
      ensures result == GroupTotals(expenses, ByYear(cal))
      ensures result.Keys == KeysOf(expenses, ByYear(cal))
      ensures forall k :: k in result ==> result[k] == Total(Where(expenses, HasKey(ByYear(cal), k)))
      ensures MapSum(result) == Total(expenses)
    {
      result := SumBy(expenses, ByYear(cal));
    }

    /** `totalThisWeek()`: the sum over the records in the week of `now`. */
    function TotalThisWeek(cal: Calendar, now: Date): (r: int)
      reads this
      ensures (forall i :: 0 <= i < |expenses| ==> !cal.sameWeek(expenses[i].date, now)) ==> r == 0
    {
      Total(Where(expenses, InWeekOf(cal, now)))
    }

    /** `totalPreviousWeek()`: the sum over the records in the week before `now`'s,
        or 0 when the calendar cannot step back a week. */
    function TotalPreviousWeek(cal: Calendar, now: Date): (r: int)
      reads this
      ensures cal.weekBefore(now) == None ==> r == 0
      ensures (cal.weekBefore(now).Some? &&
               forall i :: 0 <= i < |expenses| ==> !cal.sameWeek(expenses[i].date, cal.weekBefore(now).value))
              ==> r == 0
    {
      match cal.weekBefore(now)
      case None => 0
      case Some(previousWeek) => Total(Where(expenses, InWeekOf(cal, previousWeek)))
    }
  }

  /** Filters that agree on every record give the same list. */
  lemma {:induction false} WhereAgree(xs: seq<Expense>, p: Expense -> bool, q: Expense -> bool)
    requires forall i :: 0 <= i < |xs| ==> p(xs[i]) == q(xs[i])
    ensures Where(xs, p) == Where(xs, q)
  {
    if xs != [] {
      WhereAgree(Init(xs), p, q);
    }
  }

  /** When "same week" means "same week number and week-based year", this week's
      total is the entry of the weekly grouping for the current week (0 if absent):
      the two queries agree. */
  lemma ThisWeekIsWeeklyEntry(vm: ExpenseViewModel, cal: Calendar, now: Date)
    requires forall d1, d2 :: cal.sameWeek(d1, d2) <==>
               cal.weekOfYear(d1) == cal.weekOfYear(d2) && cal.yearForWeekOfYear(d1) == cal.yearForWeekOfYear(d2)
    ensures var weekly := GroupTotals(vm.expenses, ByWeek(cal));
            var k := WeekKey(cal, now);
            vm.TotalThisWeek(cal, now) == if k in weekly then weekly[k] else 0
  {
    var xs := vm.expenses;
    var k := WeekKey(cal, now);
    var p, q := InWeekOf(cal, now), HasKey(ByWeek(cal), k);
    forall i | 0 <= i < |xs| ensures p(xs[i]) == q(xs[i]) {
      WeekKeySeparates(cal, xs[i].date, now);
    }
    WhereAgree(xs, p, q);
    var weekly := GroupTotals(xs, ByWeek(cal));
    if k in weekly {
      GroupValue(xs, ByWeek(cal), k);
    } else {
      GroupKeys(xs, ByWeek(cal));
      forall i | 0 <= i < |xs| ensures !q(xs[i]) {
        assert ByWeek(cal)(xs[i]) in KeysOf(xs, ByWeek(cal));
      }
    }
  }
}
