/** `StatisticsView`: the category sectors, the year, month, week and day bar series
    sorted by key, and the week-over-week message. */
module Statistics {
  import opened Platform
  import opened Text
  import opened ExpenseModel
  import opened Aggregation
  import opened Ledger

  // ---------------------------------------------------------------------------
  // Bar series: `Array(totals).sorted(by: { $0.key < $1.key })`

  ghost predicate IsLeast(k: string, ks: set<string>) {
    k in ks && forall j :: j in ks && j != k ==> StringLess(k, j)
  }

  /** Every non-empty set of keys has a least one under string order. */
  lemma {:induction false} LeastExists(ks: set<string>)
    requires ks != {}
    ensures exists k :: IsLeast(k, ks)
  {
    var x :| x in ks;
    if ks == {x} {
      assert IsLeast(x, ks);
    } else {
      LeastExists(ks - {x});
      var k :| IsLeast(k, ks - {x});
      StringLessTotal(k, x);
      if StringLess(k, x) {
        assert IsLeast(k, ks);
      } else {
        forall j | j in ks && j != x ensures StringLess(x, j) {
          if j != k {
            StringLessTransitive(x, k, j);
          }
        }
        assert IsLeast(x, ks);
      }
    }
  }

  ghost predicate StrictlyAscending(ks: seq<string>) {
    forall i, j :: 0 <= i < j < |ks| ==> StringLess(ks[i], ks[j])
  }

  /** The keys of a dictionary in ascending string order, each once. */
  ghost function SortedKeys(ks: set<string>): (r: seq<string>)
    ensures StrictlyAscending(r) && |r| == |ks|
    ensures forall k :: k in r <==> k in ks
    decreases ks
  {
    if ks == {} then []
    else
      LeastExists(ks);
      var k :| IsLeast(k, ks);
      [k] + SortedKeys(ks - {k})
  }

  /** The bars of a chart: the entries of `totals`, one per key, with strictly
      ascending keys and each bar's value the dictionary's value for its key. */
  ghost function Series(totals: map<string, int>): (r: seq<(string, int)>)
    ensures |r| == |totals|
    ensures forall i, j :: 0 <= i < j < |r| ==> StringLess(r[i].0, r[j].0)
    ensures forall i :: 0 <= i < |r| ==> r[i].0 in totals && r[i].1 == totals[r[i].0]
    ensures forall k :: k in totals ==> exists i :: 0 <= i < |r| && r[i] == (k, totals[k])
  {
    var ks := SortedKeys(totals.Keys);
    var r := Entries(ks, totals);
    EntriesCover(ks, totals);
    r
  }

  /** The entries of `totals` for the keys `ks`, in the order of `ks`. */
  ghost function Entries(ks: seq<string>, totals: map<string, int>): (r: seq<(string, int)>)
    requires forall k :: k in ks ==> k in totals
    ensures |r| == |ks|
    ensures forall i :: 0 <= i < |r| ==> r[i] == (ks[i], totals[ks[i]])
  {
    seq(|ks|, i requires 0 <= i < |ks| => (ks[i], totals[ks[i]]))
  }

  lemma EntriesCover(ks: seq<string>, totals: map<string, int>)
    requires forall k :: k in ks <==> k in totals
    ensures var r := Entries(ks, totals);
            forall k :: k in totals ==> exists i :: 0 <= i < |r| && r[i] == (k, totals[k])
  {
    var r := Entries(ks, totals);
    forall k | k in totals ensures exists i :: 0 <= i < |r| && r[i] == (k, totals[k]) {
      var i :| 0 <= i < |ks| && ks[i] == k;
      assert r[i] == (k, totals[k]);
    }
  }

  /** The entries of `totals`, listed with strictly ascending keys. */
  ghost predicate AscendingListing(r: seq<(string, int)>, totals: map<string, int>) {
    && (forall i, j :: 0 <= i < j < |r| ==> StringLess(r[i].0, r[j].0))
    && (forall i :: 0 <= i < |r| ==> r[i].0 in totals && r[i].1 == totals[r[i].0])
    && (forall k :: k in totals ==> exists i :: 0 <= i < |r| && r[i].0 == k)
  }

  /** Two ascending listings of the same dictionary are the same list. */
  lemma {:induction false} AscendingListingsEqual(r: seq<(string, int)>, s: seq<(string, int)>, totals: map<string, int>)
    requires AscendingListing(r, totals) && AscendingListing(s, totals)
    ensures r == s
    decreases |r|
  {
    ListingEmptyIff(r, totals);
    ListingEmptyIff(s, totals);
    if r != [] {
      FirstEntriesEqual(r, s, totals);
      TailListing(r, totals);
      TailListing(s, totals);
      AscendingListingsEqual(r[1..], s[1..], totals - {r[0].0});
      HeadTailEqual(r, s);
    }
  }

  /** A listing is empty exactly when its dictionary is. */
  lemma ListingEmptyIff(r: seq<(string, int)>, totals: map<string, int>)
    requires AscendingListing(r, totals)
    ensures r == [] <==> totals == map[]
  {
    if r != [] {
      assert r[0].0 in totals;
    }
    if totals != map[] {
      var k :| k in totals;
    }
  }

  /** Two non-empty ascending listings of one dictionary start with the same entry. */
  lemma FirstEntriesEqual(r: seq<(string, int)>, s: seq<(string, int)>, totals: map<string, int>)
    requires AscendingListing(r, totals) && AscendingListing(s, totals) && r != [] && s != []
    ensures r[0] == s[0]
  {
    LeastFirst(r, s, totals);
    LeastFirst(s, r, totals);
    StringLessTotal(r[0].0, s[0].0);
  }

  lemma HeadTailEqual<T>(r: seq<T>, s: seq<T>)
    requires r != [] && s != [] && r[0] == s[0] && r[1..] == s[1..]
    ensures r == s
  {
    assert r == [r[0]] + r[1..];
    assert s == [s[0]] + s[1..];
  }

  /** The first entry of an ascending listing has the least key. */
  lemma LeastFirst(r: seq<(string, int)>, s: seq<(string, int)>, totals: map<string, int>)
    requires AscendingListing(r, totals) && AscendingListing(s, totals) && r != [] && s != []
    ensures !StringLess(r[0].0, s[0].0)
  {
    var k := r[0].0;
    if StringLess(k, s[0].0) {
      var j :| 0 <= j < |s| && s[j].0 == k;
      if j == 0 {
        StringLessIrreflexive(k);
      } else {
        StringLessAsymmetric(s[0].0, s[j].0);
      }
    }
  }

  /** Dropping the first (least) entry of a listing lists the rest of the dictionary. */
  lemma TailListing(r: seq<(string, int)>, totals: map<string, int>)
    requires AscendingListing(r, totals) && r != []
    ensures AscendingListing(r[1..], totals - {r[0].0})
  {
    var k := r[0].0;
    var rest := totals - {k};
    forall i | 1 <= i < |r| ensures r[i].0 != k {
      if r[i].0 == k {
        StringLessIrreflexive(k);
      }
    }
    forall key | key in rest ensures exists i :: 0 <= i < |r[1..]| && r[1..][i].0 == key {
      var i :| 0 <= i < |r| && r[i].0 == key;
      assert r[1..][i - 1].0 == key;
    }
  }

  /** Sorting does not depend on the order in which the dictionary hands out its
      entries: any listing of the entries with strictly ascending keys is `Series`. */
  lemma SeriesUnique(r: seq<(string, int)>, totals: map<string, int>)
    requires AscendingListing(r, totals)
    ensures r == Series(totals)
  {
    AscendingListingsEqual(r, Series(totals), totals);
  }

  /** Each bar of a chart keyed by `key` shows the total of the records with that key,
      and there is a bar for exactly the keys that occur in the ledger. */
  lemma SeriesBars(xs: seq<Expense>, key: Expense -> string)
    ensures var r := Series(GroupTotals(xs, key));
            && (forall i :: 0 <= i < |r| ==> r[i].1 == Total(Where(xs, HasKey(key, r[i].0))))
            && (forall k :: k in KeysOf(xs, key) <==> exists i :: 0 <= i < |r| && r[i].0 == k)
  {
    var totals := GroupTotals(xs, key);
    var r := Series(totals);
    GroupKeys(xs, key);
    forall i | 0 <= i < |r| ensures r[i].1 == Total(Where(xs, HasKey(key, r[i].0))) {
      GroupValue(xs, key, r[i].0);
    }
  }

  /** The category chart has a sector for exactly the categories that have a record. */
  lemma CategorySectorsAreSpentCategories(xs: seq<Expense>)
    ensures forall c :: c in GroupTotals(xs, ByCategory()) <==> exists i :: 0 <= i < |xs| && xs[i].category == c
  {
    GroupKeys(xs, ByCategory());
  }

  // ---------------------------------------------------------------------------
  // What plain string order does to the keys

  /** A common prefix does not change how two strings compare. */
  lemma {:induction false} StringLessPrefix(p: string, a: string, b: string)
    requires StringLess(a, b)
    ensures StringLess(p + a, p + b)
  {
    if p == [] {
      assert p + a == a && p + b == b;
    } else {
      assert (p + a)[1..] == p[1..] + a && (p + b)[1..] == p[1..] + b;
      StringLessPrefix(p[1..], a, b);
    }
  }

  /** Month keys are not zero-padded, so within a year October's key sorts before
      September's, and October's bar is drawn first. */
  lemma OctoberBeforeSeptember(xs: seq<Expense>, cal: Calendar, d1: Date, d2: Date)
    requires cal.year(d1) == cal.year(d2) && cal.month(d1) == 10 && cal.month(d2) == 9
    ensures StringLess(MonthKey(cal, d1), MonthKey(cal, d2))
    ensures var r := Series(GroupTotals(xs, ByMonth(cal)));
            forall i, j :: 0 <= i < |r| && 0 <= j < |r| && r[i].0 == MonthKey(cal, d1) && r[j].0 == MonthKey(cal, d2) ==> i < j
  {
    var y := NatToString(cal.year(d1)) + "-";
    assert NatToString(10) == "10" && NatToString(9) == "9";
    assert MonthKey(cal, d1) == y + "10" && MonthKey(cal, d2) == y + "9";
    StringLessPrefix(y, "10", "9");
    var r := Series(GroupTotals(xs, ByMonth(cal)));
    forall i, j | 0 <= i < |r| && 0 <= j < |r| && r[i].0 == MonthKey(cal, d1) && r[j].0 == MonthKey(cal, d2)
      ensures i < j
    {
      if j < i {
        StringLessAsymmetric(r[j].0, r[i].0);
      } else if i == j {
        StringLessIrreflexive(r[i].0);
      }
    }
  }

  /** Week keys begin with the week number, so week 1 of any year sorts before week 2
      of any year, whatever the years are. */
  lemma WeekNumberBeforeYear(cal: Calendar, d1: Date, d2: Date)
    requires cal.weekOfYear(d1) == 1 && cal.weekOfYear(d2) == 2
    ensures StringLess(WeekKey(cal, d1), WeekKey(cal, d2))
  {
    var y1, y2 := NatToString(cal.yearForWeekOfYear(d1)), NatToString(cal.yearForWeekOfYear(d2));
    assert NatToString(1) == "1" && NatToString(2) == "2";
    assert WeekKey(cal, d1) == "Hafta " + ("1, " + y1);
    assert WeekKey(cal, d2) == "Hafta " + ("2, " + y2);
    StringLessPrefix("Hafta ", "1, " + y1, "2, " + y2);
  }

  // ---------------------------------------------------------------------------
  // Week-over-week message

  /** The red warning replaces the congratulation exactly when this week's total is
      strictly above the previous week's; equal totals are congratulated. */
  predicate ShowsOverspendWarning(vm: ExpenseViewModel, cal: Calendar, now: Date)
    reads vm
  {
    vm.TotalThisWeek(cal, now) > vm.TotalPreviousWeek(cal, now)
  }

  /** A filtered total of records with no negative amount is not negative. */
  lemma WhereTotalNonNegative(xs: seq<Expense>, p: Expense -> bool)
    requires forall i :: 0 <= i < |xs| ==> xs[i].amount >= 0
    ensures Total(Where(xs, p)) >= 0
  {
    var r := Where(xs, p);
    WhereSelects(xs, p);
    TotalNonNegative(r);
  }

  /** A week with no record shows no warning when no amount is negative. */
  lemma QuietWeekShowsNoWarning(vm: ExpenseViewModel, cal: Calendar, now: Date)
    requires forall i :: 0 <= i < |vm.expenses| ==> vm.expenses[i].amount >= 0
    requires forall i :: 0 <= i < |vm.expenses| ==> !cal.sameWeek(vm.expenses[i].date, now)
    ensures !ShowsOverspendWarning(vm, cal, now)
  {
    if cal.weekBefore(now).Some? {
      WhereTotalNonNegative(vm.expenses, InWeekOf(cal, cal.weekBefore(now).value));
    }
  }

  /** A record appended to the ledger adds its amount to a filtered total exactly when
      it passes the filter: a record dated this week raises this week's total by its
      amount and leaves another week's total alone. */
  lemma AppendedRecordTotal(xs: seq<Expense>, e: Expense, p: Expense -> bool)
    ensures Total(Where(xs + [e], p)) == Total(Where(xs, p)) + (if p(e) then e.amount else 0)
  {
    WhereAppend(xs, [e], p);
    WhereSingle(e, p);
    TotalAppend(Where(xs, p), Where([e], p));
    assert Total([e]) == e.amount by {
      assert Init([e]) == [] && Last([e]) == e;
    }
  }
}
