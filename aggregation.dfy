/** The value-level meaning of the ledger queries in `ExpenseViewModel`: sums,
    filters, removal at offsets and the grouping of amounts by a key. Every fold here
    walks the list from the front, as the app's `for` loops and `reduce` calls do, so
    each is defined on the list without its last element. */
module Aggregation {
  import opened Platform
  import opened Text
  import opened ExpenseModel

  function Last(xs: seq<Expense>): Expense
    requires xs != []
  {
    xs[|xs| - 1]
  }

  function Init(xs: seq<Expense>): seq<Expense>
    requires xs != []
  {
    xs[..|xs| - 1]
  }

  lemma InitOfAppend(xs: seq<Expense>, e: Expense)
    ensures Init(xs + [e]) == xs && Last(xs + [e]) == e
  {
    assert (xs + [e])[..|xs|] == xs;
  }

  // ---------------------------------------------------------------------------
  // Sum of amounts

  /** `reduce(0) { $0 + $1.amount }`. */
  function Total(xs: seq<Expense>): int {
    if xs == [] then 0 else Total(Init(xs)) + Last(xs).amount
  }

  lemma {:induction false} TotalAppend(a: seq<Expense>, b: seq<Expense>)
    ensures Total(a + b) == Total(a) + Total(b)
  {
    if b != [] {
      assert Init(a + b) == a + Init(b);
      assert Last(a + b) == Last(b);
      TotalAppend(a, Init(b));
    } else {
      assert a + b == a;
    }
  }

  /** When every amount is non-negative, so is the sum. */
  lemma {:induction false} TotalNonNegative(xs: seq<Expense>)
    requires forall i :: 0 <= i < |xs| ==> xs[i].amount >= 0
    ensures Total(xs) >= 0
  {
    if xs != [] {
      TotalNonNegative(Init(xs));
    }
  }

  // ---------------------------------------------------------------------------
  // Filtering

  /** `xs.filter(p)`. */
  function Where(xs: seq<Expense>, p: Expense -> bool): (r: seq<Expense>)
    ensures |r| <= |xs|
    ensures (forall i :: 0 <= i < |xs| ==> p(xs[i])) ==> r == xs
    ensures (forall i :: 0 <= i < |xs| ==> !p(xs[i])) ==> r == []
  {
    if xs == [] then [] else Where(Init(xs), p) + (if p(Last(xs)) then [Last(xs)] else [])
  }

  /** The positions of the records that satisfy `p`, in ascending order. */
  function Matches(xs: seq<Expense>, p: Expense -> bool): seq<nat> {
    if xs == [] then [] else Matches(Init(xs), p) + (if p(Last(xs)) then [|xs| - 1] else [])
  }

  ghost predicate Ascending(idx: seq<nat>) {
    forall j, k :: 0 <= j < k < |idx| ==> idx[j] < idx[k]
  }

  /** `Where` keeps exactly the records that satisfy `p`, each once, in their
      original order: its j-th element is the record at the j-th matching position. */
  lemma {:induction false} WhereSelects(xs: seq<Expense>, p: Expense -> bool)
    ensures var r, idx := Where(xs, p), Matches(xs, p);
            && |r| == |idx|
            && Ascending(idx)
            && (forall j :: 0 <= j < |idx| ==> idx[j] < |xs| && r[j] == xs[idx[j]])
            && (forall i :: 0 <= i < |xs| ==> (p(xs[i]) <==> i in idx))
  {
    if xs != [] {
      var prev, e := Init(xs), Last(xs);
      WhereSelects(prev, p);
      var r, idx := Where(xs, p), Matches(xs, p);
      var r0, idx0 := Where(prev, p), Matches(prev, p);
      assert r == r0 + (if p(e) then [e] else []);
      assert idx == idx0 + (if p(e) then [|xs| - 1] else []);
      forall j | 0 <= j < |idx| ensures idx[j] < |xs| && r[j] == xs[idx[j]] {
        if j < |idx0| {
          assert xs[idx0[j]] == prev[idx0[j]];
        }
      }
      forall i | 0 <= i < |xs| ensures p(xs[i]) <==> i in idx {
        if i < |xs| - 1 {
          assert xs[i] == prev[i];
          assert i in idx0 <==> i in idx;
        }
      }
    }
  }

  /** A one-record list passes through the filter or does not. */
  lemma WhereSingle(e: Expense, p: Expense -> bool)
    ensures Where([e], p) == if p(e) then [e] else []
  {
    assert Init([e]) == [] && Last([e]) == e;
  }

  /** Filtering distributes over concatenation. */
  lemma {:induction false} WhereAppend(a: seq<Expense>, b: seq<Expense>, p: Expense -> bool)
    ensures Where(a + b, p) == Where(a, p) + Where(b, p)
  {
    if b != [] {
      assert Init(a + b) == a + Init(b);
      assert Last(a + b) == Last(b);
      WhereAppend(a, Init(b), p);
    } else {
      assert a + b == a;
    }
  }

  // ---------------------------------------------------------------------------
  // Removal at offsets

  /** `remove(atOffsets:)`: the records whose position is not in `offsets`. */
  function RemoveAt(xs: seq<Expense>, offsets: set<nat>): (r: seq<Expense>)
    ensures |r| <= |xs|
  {
    if xs == [] then [] else RemoveAt(Init(xs), offsets) + (if |xs| - 1 in offsets then [] else [Last(xs)])
  }

  /** The positions below `n` that are not in `offsets`, ascending. */
  function Survivors(n: nat, offsets: set<nat>): seq<nat> {
    if n == 0 then [] else Survivors(n - 1, offsets) + (if n - 1 in offsets then [] else [n - 1])
  }

  /** The offsets that fall inside a list of length `n`. */
  function OffsetsBelow(n: nat, offsets: set<nat>): set<nat> {
    set o | o in offsets && o < n
  }

  /** `RemoveAt` keeps the record at every position not in `offsets`, and nothing else,
      in the original order; it shrinks the list by the number of offsets in range. */
  lemma {:induction false} RemoveAtSelects(xs: seq<Expense>, offsets: set<nat>)
    ensures var r, idx := RemoveAt(xs, offsets), Survivors(|xs|, offsets);
            && |r| == |idx| == |xs| - |OffsetsBelow(|xs|, offsets)|
            && Ascending(idx)
            && (forall j :: 0 <= j < |idx| ==> idx[j] < |xs| && r[j] == xs[idx[j]])
            && (forall i :: 0 <= i < |xs| ==> (i !in offsets <==> i in idx))
  {
    if xs != [] {
      var n := |xs|;
      RemoveAtSelects(Init(xs), offsets);
      if n - 1 in offsets {
        assert OffsetsBelow(n, offsets) == OffsetsBelow(n - 1, offsets) + {n - 1};
      } else {
        assert OffsetsBelow(n, offsets) == OffsetsBelow(n - 1, offsets);
      }
    }
  }

  /** Removing no offsets, or offsets past the end, changes nothing. */
  lemma {:induction false} RemoveNothing(xs: seq<Expense>, offsets: set<nat>)
    requires forall o :: o in offsets ==> o >= |xs|
    ensures RemoveAt(xs, offsets) == xs
  {
    if xs != [] {
      RemoveNothing(Init(xs), offsets);
    }
  }

  // ---------------------------------------------------------------------------
  // Grouping

  /** `totals[k, default: 0] += a`. */
  function Accumulate<K>(totals: map<K, int>, k: K, a: int): (r: map<K, int>)
    ensures r.Keys == totals.Keys + {k}
  {
    totals[k := (if k in totals then totals[k] else 0) + a]
  }

  /** The dictionary the `totalPer…` loops build: for each record, in order, its
      amount is added to the entry of its key. */
  function GroupTotals<K>(xs: seq<Expense>, key: Expense -> K): map<K, int> {
    if xs == [] then map[] else Accumulate(GroupTotals(Init(xs), key), key(Last(xs)), Last(xs).amount)
  }

  /** The keys that occur in the ledger. */
  ghost function KeysOf<K>(xs: seq<Expense>, key: Expense -> K): set<K> {
    set i | 0 <= i < |xs| :: key(xs[i])
  }

  /** The records whose key is `k`. */
  function HasKey<K(==)>(key: Expense -> K, k: K): Expense -> bool {
    e => key(e) == k
  }

  /** A grouping has an entry exactly for the keys that occur: no zero-filled entries
      for absent keys, and an empty ledger gives an empty dictionary. */
  lemma {:induction false} GroupKeys<K>(xs: seq<Expense>, key: Expense -> K)
    ensures GroupTotals(xs, key).Keys == KeysOf(xs, key)
  {
    if xs != [] {
      GroupKeys(Init(xs), key);
      var n := |xs|;
      assert KeysOf(xs, key) == KeysOf(Init(xs), key) + {key(Last(xs))} by {
        forall k | k in KeysOf(xs, key) ensures k in KeysOf(Init(xs), key) + {key(Last(xs))} {
          var i :| 0 <= i < n && key(xs[i]) == k;
          if i < n - 1 {
            assert Init(xs)[i] == xs[i];
          }
        }
        forall k | k in KeysOf(Init(xs), key) ensures k in KeysOf(xs, key) {
          var i :| 0 <= i < n - 1 && key(Init(xs)[i]) == k;
          assert xs[i] == Init(xs)[i];
        }
        assert key(xs[n - 1]) in KeysOf(xs, key);
      }
    }
  }

  /** Each entry of a grouping is the sum of the amounts of the records with that key. */
  lemma {:induction false} GroupValue<K>(xs: seq<Expense>, key: Expense -> K, k: K)
    requires k in GroupTotals(xs, key)
    ensures GroupTotals(xs, key)[k] == Total(Where(xs, HasKey(key, k)))
  {
    var p := HasKey(key, k);
    var prev := Init(xs);
    var e := Last(xs);
    var w := Where(prev, p) + (if p(e) then [e] else []);
    assert Where(xs, p) == w;
    TotalAppend(Where(prev, p), if p(e) then [e] else []);
    assert Total([e]) == e.amount by {
      assert Init([e]) == [];
    }
    if k in GroupTotals(prev, key) {
      GroupValue(prev, key, k);
    } else if p(e) {
      GroupKeys(prev, key);
      forall i | 0 <= i < |prev| ensures !p(prev[i]) {
        assert key(prev[i]) in KeysOf(prev, key);
      }
    }
  }

  /** The sum of a dictionary's values. */
  ghost function MapSum<K>(m: map<K, int>): int
    decreases |m|
  {
    if m == map[] then 0
    else
      var k :| k in m;
      m[k] + MapSum(m - {k})
  }

  /** Any entry may be taken out first. */
  lemma {:induction false} MapSumRemove<K>(m: map<K, int>, k: K)
    requires k in m
    ensures MapSum(m) == m[k] + MapSum(m - {k})
    decreases |m|
  {
    var j :| j in m && MapSum(m) == m[j] + MapSum(m - {j});
    if j != k {
      MapSumRemove(m - {j}, k);
      MapSumRemove(m - {k}, j);
      assert m - {j} - {k} == m - {k} - {j};
    }
  }

  /** Adding `a` to one entry (creating it at 0 if needed) adds `a` to the sum. */
  lemma MapSumAccumulate<K>(m: map<K, int>, k: K, a: int)
    ensures MapSum(Accumulate(m, k, a)) == MapSum(m) + a
  {
    var m' := Accumulate(m, k, a);
    MapSumRemove(m', k);
    assert m' - {k} == m - {k};
    if k in m {
      MapSumRemove(m, k);
    } else {
      assert m - {k} == m;
    }
  }

  /** The values of a grouping sum to the total of all amounts, whatever the key. */
  lemma {:induction false} GroupSum<K>(xs: seq<Expense>, key: Expense -> K)
    ensures MapSum(GroupTotals(xs, key)) == Total(xs)
  {
    if xs != [] {
      GroupSum(Init(xs), key);
      MapSumAccumulate(GroupTotals(Init(xs), key), key(Last(xs)), Last(xs).amount);
    }
  }

  // ---------------------------------------------------------------------------
  // Grouping keys

  /** `"Hafta \(week), \(yearForWeekOfYear)"` */
  function WeekKey(cal: Calendar, d: Date): string {
    "Hafta " + NatToString(cal.weekOfYear(d)) + ", " + NatToString(cal.yearForWeekOfYear(d))
  }

  /** `"\(year)-\(month)"` */
  function MonthKey(cal: Calendar, d: Date): string {
    NatToString(cal.year(d)) + "-" + NatToString(cal.month(d))
  }

  /** `"\(year)"` */
  function YearKey(cal: Calendar, d: Date): string {
    NatToString(cal.year(d))
  }

  /** Two dates share a week bucket exactly when their week number and week-based
      year agree. */
  lemma WeekKeySeparates(cal: Calendar, d1: Date, d2: Date)
    ensures WeekKey(cal, d1) == WeekKey(cal, d2) <==>
            cal.weekOfYear(d1) == cal.weekOfYear(d2) && cal.yearForWeekOfYear(d1) == cal.yearForWeekOfYear(d2)
  {
    var w1, y1 := NatToString(cal.weekOfYear(d1)), NatToString(cal.yearForWeekOfYear(d1));
    var w2, y2 := NatToString(cal.weekOfYear(d2)), NatToString(cal.yearForWeekOfYear(d2));
    assert WeekKey(cal, d1) == "Hafta " + (w1 + ", " + y1);
    assert WeekKey(cal, d2) == "Hafta " + (w2 + ", " + y2);
    if WeekKey(cal, d1) == WeekKey(cal, d2) {
      assert w1 + ", " + y1 == WeekKey(cal, d1)[6..];
      assert w2 + ", " + y2 == WeekKey(cal, d2)[6..];
    }
    SplitAtSeparator(w1, ", ", y1, w2, y2);
    NatToStringInjective(cal.weekOfYear(d1), cal.weekOfYear(d2));
    NatToStringInjective(cal.yearForWeekOfYear(d1), cal.yearForWeekOfYear(d2));
  }

  /** Two dates share a month bucket exactly when their year and month agree. */
  lemma MonthKeySeparates(cal: Calendar, d1: Date, d2: Date)
    ensures MonthKey(cal, d1) == MonthKey(cal, d2) <==>
            cal.year(d1) == cal.year(d2) && cal.month(d1) == cal.month(d2)
  {
    SplitAtSeparator(NatToString(cal.year(d1)), "-", NatToString(cal.month(d1)),
                     NatToString(cal.year(d2)), NatToString(cal.month(d2)));
    NatToStringInjective(cal.year(d1), cal.year(d2));
    NatToStringInjective(cal.month(d1), cal.month(d2));
  }

  /** Two dates share a year bucket exactly when their year agrees. */
  lemma YearKeySeparates(cal: Calendar, d1: Date, d2: Date)
    ensures YearKey(cal, d1) == YearKey(cal, d2) <==> cal.year(d1) == cal.year(d2)
  {
    NatToStringInjective(cal.year(d1), cal.year(d2));
  }
}
