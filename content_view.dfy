/** `ContentView`: the main screen's category filter, the swipe-to-delete wiring,
    logout and the exports. */
module ContentView {
  import opened Wrappers
  import opened Platform
  import opened ExpenseModel
  import opened Aggregation
  import opened Ledger
  import opened CsvExport
  import opened Login
  import opened LimitSetting
  import opened PdfReport

  /** The rows on screen: every record, or the records of the selected category. */
  function Shown(selected: Option<Category>): Expense -> bool {
    (e: Expense) => selected.None? || e.category == selected.value
  }

  function Hidden(selected: Option<Category>): Expense -> bool {
    (e: Expense) => !Shown(selected)(e)
  }

  /** `filteredExpenses`. */
  function FilteredExpenses(xs: seq<Expense>, selected: Option<Category>): (r: seq<Expense>)
    ensures |r| <= |xs|
    ensures selected.None? ==> r == xs
  {
    if selected.None? then xs else Where(xs, Shown(selected))
  }

  /** With a category selected, the list shows exactly the records of that category,
      each once, in ledger order: its j-th row is the record at the j-th position of
      `Matches`. */
  lemma FilteredIsCategorySubsequence(xs: seq<Expense>, c: Category)
    ensures var r, idx := FilteredExpenses(xs, Some(c)), Matches(xs, Shown(Some(c)));
            && |r| == |idx|
            && Ascending(idx)
            && (forall j :: 0 <= j < |idx| ==> idx[j] < |xs| && r[j] == xs[idx[j]])
            && (forall i :: 0 <= i < |xs| ==> (xs[i].category == c <==> i in idx))
  {
    WhereSelects(xs, Shown(Some(c)));
  }

  lemma FilteredIsWhere(xs: seq<Expense>, selected: Option<Category>)
    ensures FilteredExpenses(xs, selected) == Where(xs, Shown(selected))
  {
  }

  // ---------------------------------------------------------------------------
  // Deleting rows

  /** `onDelete` as written: the offsets of the rows on screen go unchanged to
      `deleteExpense`, which removes those positions of the full ledger. */
  method OnDeleteAsWritten(vm: ExpenseViewModel, selected: Option<Category>, offsets: set<nat>)
    requires vm.Valid()
    requires forall o :: o in offsets ==> o < |FilteredExpenses(vm.expenses, selected)|
    modifies vm
    ensures vm.Valid()
    ensures vm.expenses == RemoveAt(old(vm.expenses), offsets)
    ensures vm.persisted == Saved(vm.expenses)
  {
    vm.DeleteExpense(offsets);
  }

  /** With a filter on, deleting the first row on screen removes another record: the
      screen shows `b` alone, yet the record removed is `a` and `b` stays. */
  lemma OnDeleteAsWrittenRemovesWrongRecord()
    ensures var a := Expense(1, "a", 100, Market, 0);
            var b := Expense(2, "b", 200, Yemek, 0);
            && FilteredExpenses([a, b], Some(Yemek)) == [b]
            && RemoveAt([a, b], {0}) == [b]
            && DeleteDisplayed([a, b], Some(Yemek), {0}) == [a]
  {
    var a := Expense(1, "a", 100, Market, 0);
    var b := Expense(2, "b", 200, Yemek, 0);
    var xs := [a, b];
    assert Init(xs) == [a] && Init([a]) == [];
    assert Last(xs) == b && Last([a]) == a;
    assert !Shown(Some(Yemek))(a) && Shown(Some(Yemek))(b);
    assert Matches([a], Shown(Some(Yemek))) == [];
    assert Matches(xs, Shown(Some(Yemek))) == [1];
    assert LedgerOffsets(xs, Shown(Some(Yemek)), {0}) == {1};
  }

  /** The ledger positions of the rows at `offsets` in the list filtered by `p`. */
  function LedgerOffsets(xs: seq<Expense>, p: Expense -> bool, offsets: set<nat>): set<nat> {
    var idx := Matches(xs, p);
    set o | o in offsets && o < |idx| :: idx[o]
  }

  /** `onDelete` as intended: the rows on screen at `offsets` are the ones removed. */
  function DeleteDisplayed(xs: seq<Expense>, selected: Option<Category>, offsets: set<nat>): seq<Expense> {
    RemoveAt(xs, LedgerOffsets(xs, Shown(selected), offsets))
  }

  /** `RemoveAt` only looks at the offsets inside the list. */
  lemma {:induction false} RemoveAtInRange(xs: seq<Expense>, s: set<nat>, t: set<nat>)
    requires forall i :: 0 <= i < |xs| ==> (i in s <==> i in t)
    ensures RemoveAt(xs, s) == RemoveAt(xs, t)
  {
    if xs != [] {
      RemoveAtInRange(Init(xs), s, t);
    }
  }

  /** Removing after the last element of a list. */
  lemma RemoveAtLast(w: seq<Expense>, e: Expense, offsets: set<nat>)
    ensures RemoveAt(w + [e], offsets) == RemoveAt(w, offsets) + (if |w| in offsets then [] else [e])
  {
    InitOfAppend(w, e);
  }

  /** How the translated offsets of a list relate to those of the list without its
      last record. */
  lemma LedgerOffsetsStep(xs: seq<Expense>, p: Expense -> bool, offsets: set<nat>)
    requires xs != []
    ensures var n, T, T0, m := |xs|, LedgerOffsets(xs, p, offsets), LedgerOffsets(Init(xs), p, offsets), Matches(Init(xs), p);
            && (forall i :: 0 <= i < n - 1 ==> (i in T <==> i in T0))
            && (n - 1 in T <==> p(Last(xs)) && |m| in offsets)
  {
    LedgerOffsetsKeep(xs, p, offsets);
    LedgerOffsetsLast(xs, p, offsets);
  }

  lemma LedgerOffsetsKeep(xs: seq<Expense>, p: Expense -> bool, offsets: set<nat>)
    requires xs != []
    ensures var n, T, T0 := |xs|, LedgerOffsets(xs, p, offsets), LedgerOffsets(Init(xs), p, offsets);
            forall i :: 0 <= i < n - 1 ==> (i in T <==> i in T0)
  {
    var n, prev := |xs|, Init(xs);
    var M, m := Matches(xs, p), Matches(prev, p);
    var T, T0 := LedgerOffsets(xs, p, offsets), LedgerOffsets(prev, p, offsets);
    assert M == m + (if p(Last(xs)) then [n - 1] else []);
    forall i | 0 <= i < n - 1 ensures i in T <==> i in T0 {
      if i in T {
        var o :| o in offsets && o < |M| && M[o] == i;
        assert o < |m|;
        assert m[o] == i;
      }
      if i in T0 {
        var o :| o in offsets && o < |m| && m[o] == i;
        assert M[o] == i;
      }
    }
  }

  lemma LedgerOffsetsLast(xs: seq<Expense>, p: Expense -> bool, offsets: set<nat>)
    requires xs != []
    ensures |xs| - 1 in LedgerOffsets(xs, p, offsets) <==> p(Last(xs)) && |Matches(Init(xs), p)| in offsets
  {
    var n, prev := |xs|, Init(xs);
    var M, m := Matches(xs, p), Matches(prev, p);
    var T := LedgerOffsets(xs, p, offsets);
    MatchesBelow(prev, p);
    assert M == m + (if p(Last(xs)) then [n - 1] else []);
    if n - 1 in T {
      var o :| o in offsets && o < |M| && M[o] == n - 1;
      assert o == |m| && p(Last(xs));
    }
    if p(Last(xs)) && |m| in offsets {
      assert M[|m|] == n - 1;
    }
  }

  lemma MatchesBelow(xs: seq<Expense>, p: Expense -> bool)
    ensures forall j :: 0 <= j < |Matches(xs, p)| ==> Matches(xs, p)[j] < |xs|
  {
    WhereSelects(xs, p);
  }

  /** Deleting the translated offsets from a list is deleting them from the list
      without its last record, then keeping or dropping that record. */
  lemma DeleteStep(xs: seq<Expense>, p: Expense -> bool, offsets: set<nat>)
    requires xs != []
    ensures var prev, e := Init(xs), Last(xs);
            var kept := if p(e) && |Matches(prev, p)| in offsets then [] else [e];
            RemoveAt(xs, LedgerOffsets(xs, p, offsets)) == RemoveAt(prev, LedgerOffsets(prev, p, offsets)) + kept
  {
    var prev := Init(xs);
    LedgerOffsetsStep(xs, p, offsets);
    RemoveAtInRange(prev, LedgerOffsets(xs, p, offsets), LedgerOffsets(prev, p, offsets));
  }

  /** Translating the offsets removes exactly the selected rows of the filtered list. */
  lemma {:induction false} DeleteThroughMatches(xs: seq<Expense>, p: Expense -> bool, offsets: set<nat>)
    ensures Where(RemoveAt(xs, LedgerOffsets(xs, p, offsets)), p) == RemoveAt(Where(xs, p), offsets)
  {
    if xs != [] {
      var prev, e := Init(xs), Last(xs);
      var r0 := RemoveAt(prev, LedgerOffsets(prev, p, offsets));
      var w := Where(prev, p);
      DeleteThroughMatches(prev, p, offsets);
      DeleteStep(xs, p, offsets);
      WhereSelects(prev, p);
      var kept := if p(e) && |w| in offsets then [] else [e];
      var r := RemoveAt(xs, LedgerOffsets(xs, p, offsets));
      assert r == r0 + kept;
      WhereAppend(r0, kept, p);
      WhereSingle(e, p);
      assert Where(r, p) == RemoveAt(w, offsets) + Where(kept, p);
      if p(e) {
        assert Where(xs, p) == w + [e];
        RemoveAtLast(w, e, offsets);
      } else {
        assert Where(xs, p) == w;
      }
    }
  }

  /** Translating the offsets keeps every record the filter hides. */
  lemma {:induction false} DeleteThroughMatchesKeepsHidden(xs: seq<Expense>, p: Expense -> bool, q: Expense -> bool, offsets: set<nat>)
    requires forall e :: q(e) == !p(e)
    ensures Where(RemoveAt(xs, LedgerOffsets(xs, p, offsets)), q) == Where(xs, q)
  {
    if xs != [] {
      var prev, e := Init(xs), Last(xs);
      var r0 := RemoveAt(prev, LedgerOffsets(prev, p, offsets));
      DeleteThroughMatchesKeepsHidden(prev, p, q, offsets);
      DeleteStep(xs, p, offsets);
      var kept := if p(e) && |Matches(prev, p)| in offsets then [] else [e];
      WhereAppend(r0, kept, q);
    }
  }

  /** The intended delete removes the chosen rows of the list on screen, in their
      order, and keeps every record the filter hides. */
  lemma DeleteDisplayedRemovesDisplayedRows(xs: seq<Expense>, selected: Option<Category>, offsets: set<nat>)
    ensures var r := DeleteDisplayed(xs, selected, offsets);
            && FilteredExpenses(r, selected) == RemoveAt(FilteredExpenses(xs, selected), offsets)
            && Where(r, Hidden(selected)) == Where(xs, Hidden(selected))
  {
    DeleteThroughMatches(xs, Shown(selected), offsets);
    DeleteThroughMatchesKeepsHidden(xs, Shown(selected), Hidden(selected), offsets);
  }

  /** With no filter the rows on screen are the ledger, and the intended delete is the
      one the code performs. */
  lemma DeleteDisplayedUnfiltered(xs: seq<Expense>, offsets: set<nat>)
    ensures DeleteDisplayed(xs, None, offsets) == RemoveAt(xs, offsets)
  {
    UnfilteredOffsets(xs, offsets);
    RemoveAtInRange(xs, LedgerOffsets(xs, Shown(None), offsets), offsets);
  }

  /** Without a filter, a row offset inside the list is its own ledger position. */
  lemma UnfilteredOffsets(xs: seq<Expense>, offsets: set<nat>)
    ensures forall i :: 0 <= i < |xs| ==> (i in LedgerOffsets(xs, Shown(None), offsets) <==> i in offsets)
  {
    var p := Shown(None);
    var idx := Matches(xs, p);
    MatchesEverything(xs, p);
    forall i | 0 <= i < |xs| ensures i in LedgerOffsets(xs, p, offsets) <==> i in offsets {
      assert idx[i] == i;
      if i in LedgerOffsets(xs, p, offsets) {
        var o :| o in offsets && o < |idx| && idx[o] == i;
        assert idx[o] == o;
      }
    }
  }

  /** When every record passes, the matching positions are `0, 1, …, |xs| - 1`. */
  lemma {:induction false} MatchesEverything(xs: seq<Expense>, p: Expense -> bool)
    requires forall i :: 0 <= i < |xs| ==> p(xs[i])
    ensures |Matches(xs, p)| == |xs|
    ensures forall j :: 0 <= j < |xs| ==> Matches(xs, p)[j] == j
  {
    if xs != [] {
      var prev := Init(xs);
      assert forall i :: 0 <= i < |prev| ==> prev[i] == xs[i];
      MatchesEverything(prev, p);
      assert p(Last(xs));
    }
  }

  /** `onDelete` with the row offsets translated to ledger positions. */
  method OnDelete(vm: ExpenseViewModel, selected: Option<Category>, offsets: set<nat>)
    requires vm.Valid()
    modifies vm
    ensures vm.Valid()
    ensures vm.expenses == DeleteDisplayed(old(vm.expenses), selected, offsets)
    ensures vm.persisted == Saved(vm.expenses)
  {
    var targets := LedgerOffsets(vm.expenses, Shown(selected), offsets);
    WhereSelects(vm.expenses, Shown(selected));
    vm.DeleteExpense(targets);
  }

  // ---------------------------------------------------------------------------
  // Toolbar actions

  /** The logout button clears the stored name, which sends the app back to login. */
  method Logout(store: UserStore)
    modifies store
    ensures store.username == "" && store.Valid()
  {
    store.username := "";
  }

  /** `exportCSV()`: the text is built from the whole ledger, whatever filter is on. */
  method ExportCsv(vm: ExpenseViewModel, fmt: Formatters) returns (csv: string)
    ensures csv == Header + CsvLines(vm.expenses, fmt)
    ensures |csv| >= |Header| && csv[..|Header|] == Header
  {
    csv := GenerateCsv(vm.expenses, fmt);
  }

  /** `exportPDF()`: the report is built from the whole ledger, whatever filter is on,
      and the stored monthly limit. */
  method ExportPdf(vm: ExpenseViewModel, limits: LimitStore, fmt: Formatters) returns (report: Report)
    ensures report.totalText == TotalText(vm.expenses, fmt)
    ensures report.limitText == LimitText(limits.monthlyLimit, fmt)
    ensures |report.lines| == |vm.expenses|
    ensures forall i :: 0 <= i < |vm.expenses| ==> report.lines[i].text == LineText(vm.expenses[i], fmt)
  {
    report := CreatePdf(vm.expenses, limits.monthlyLimit, fmt);
  }
}
