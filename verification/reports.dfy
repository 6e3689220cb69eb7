/** The aggregation block of the reports page: headline statistics, spending
    per category (the ten largest) and spending per day. Amounts are integer
    hundredths rather than JavaScript numbers. */
module Reports {
  import opened Common
  import opened Sequences

  const Uncategorized := "Uncategorized"
  const TopCount: nat := 10

  /** An expense as the page receives it: amount, ISO date text, and the name
      of its category when the category came with it. */
  datatype ChartExpense = ChartExpense(amount: int, date: string, categoryName: Option<string>)

  /** One bar of either chart: its key (category name or day) and amount. */
  datatype Bar = Bar(key: string, amount: int)

  datatype Stats = Stats(total: int, avg: real, max: int, count: nat)

  function AmountOf(e: ChartExpense): int { e.amount }

  function BarAmount(b: Bar): int { b.amount }

  // ---------------------------------------------------------------- keys

  /** `exp.category?.name || 'Uncategorized'`: a missing or empty name falls back. */
  function CategoryLabel(e: ChartExpense): (r: string)
    ensures r != []
  {
    match e.categoryName
    case Some(name) => if name != [] then name else Uncategorized
    case None => Uncategorized
  }

  /** `date.split('T')[0]`: the text before the first `T`. */
  function DayKey(date: string): (r: string)
    ensures 'T' !in r
    ensures |r| <= |date| && r == date[..|r|]
    ensures |r| < |date| ==> date[|r|] == 'T'
  {
    if date == [] || date[0] == 'T' then []
    else [date[0]] + DayKey(date[1..])
  }

  function DayOf(e: ChartExpense): string { DayKey(e.date) }

  /** The keys that occur: `new Set(expenses.map(key))`. */
  function KeysOf(es: seq<ChartExpense>, key: ChartExpense -> string): set<string> {
    set e | e in es :: key(e)
  }

  function KeyIs(key: ChartExpense -> string, k: string): ChartExpense -> bool {
    (e: ChartExpense) => key(e) == k
  }

  /** What the dictionary holds under `k` once the expenses `es` have been
      added in order: the amounts of those with that key, added up. */
  function TotalUnder(es: seq<ChartExpense>, key: ChartExpense -> string, k: string): int {
    if es == [] then 0
    else TotalUnder(es[..|es| - 1], key, k) + (if key(es[|es| - 1]) == k then es[|es| - 1].amount else 0)
  }

  /** The same total, written as a filter and a sum. */
  lemma {:induction false} TotalUnderIsFilteredSum(es: seq<ChartExpense>, key: ChartExpense -> string, k: string)
    ensures TotalUnder(es, key, k) == Sum(Filter(es, KeyIs(key, k)), AmountOf)
  {
    if es != [] {
      var init, e := es[..|es| - 1], es[|es| - 1];
      assert es == init + [e];
      var p := KeyIs(key, k);
      TotalUnderIsFilteredSum(init, key, k);
      FilterAppend(init, [e], p);
      assert Filter([e], p) == if key(e) == k then [e] else [] by {
        assert [e][1..] == [];
      }
      SumAppend(Filter(init, p), Filter([e], p), AmountOf);
    }
  }

  /** There are never more distinct keys than expenses. */
  lemma {:induction false} KeysOfBound(es: seq<ChartExpense>, key: ChartExpense -> string)
    ensures |KeysOf(es, key)| <= |es|
  {
    if es != [] {
      KeysOfBound(es[1..], key);
      assert KeysOf(es, key) == KeysOf(es[1..], key) + {key(es[0])} by {
        assert es == [es[0]] + es[1..];
      }
    }
  }

  /** A list of the distinct keys that occur is as long as the set of them. */
  lemma {:induction false} KeysCount(es: seq<ChartExpense>, key: ChartExpense -> string, keys: seq<string>)
    requires Distinct(keys)
    requires forall k :: k in keys <==> k in KeysOf(es, key)
    ensures |keys| == |KeysOf(es, key)|
  {
    DistinctCardinality(keys);
    assert (set x | x in keys) == KeysOf(es, key);
  }

  // ---------------------------------------------------------------- the dictionaries

  /** `Object.keys(map).map(k => ({ key: k, amount: map[k] }))`. */
  function Bars(keys: seq<string>, m: map<string, int>): (r: seq<Bar>)
    requires forall k :: k in keys ==> k in m
    ensures |r| == |keys|
  {
    if keys == [] then [] else [Bar(keys[0], m[keys[0]])] + Bars(keys[1..], m)
  }

  lemma {:induction false} BarsAt(keys: seq<string>, m: map<string, int>)
    requires forall k :: k in keys ==> k in m
    ensures forall i :: 0 <= i < |keys| ==> Bars(keys, m)[i] == Bar(keys[i], m[keys[i]])
  {
    if keys != [] {
      BarsAt(keys[1..], m);
    }
  }

  lemma BarsMembers(keys: seq<string>, m: map<string, int>)
    requires forall k :: k in keys ==> k in m
    ensures forall b: Bar :: b in Bars(keys, m) <==> b.key in keys && b.amount == m[b.key]
  {
    var r := Bars(keys, m);
    BarsAt(keys, m);
    forall b: Bar | b.key in keys && b.amount == m[b.key] ensures b in r {
      var i :| 0 <= i < |keys| && keys[i] == b.key;
      assert r[i] == b;
    }
  }

  lemma BarsDistinct(keys: seq<string>, m: map<string, int>)
    requires forall k :: k in keys ==> k in m
    requires Distinct(keys)
    ensures Distinct(Bars(keys, m))
  {
    var r := Bars(keys, m);
    BarsAt(keys, m);
    forall i, j | 0 <= i < j < |r| ensures r[i] != r[j] {
      assert r[i].key == keys[i] && r[j].key == keys[j];
    }
  }

  /** Accumulating into an existing key raises the sum of the bars by the amount added. */
  lemma {:induction false} BarsBump(keys: seq<string>, m: map<string, int>, k: string, d: int)
    requires forall x :: x in keys ==> x in m
    requires Distinct(keys) && k in keys
    ensures Sum(Bars(keys, m[k := m[k] + d]), BarAmount) == Sum(Bars(keys, m), BarAmount) + d
  {
    var i :| 0 <= i < |keys| && keys[i] == k;
    var before := Bars(keys, m);
    var after := Bars(keys, m[k := m[k] + d]);
    BarsAt(keys, m);
    BarsAt(keys, m[k := m[k] + d]);
    assert after == before[i := Bar(k, m[k] + d)] by {
      forall j | 0 <= j < |keys| ensures after[j] == before[i := Bar(k, m[k] + d)][j] {
        if j != i {
          assert keys[j] != k;
        }
      }
    }
    SumUpdate(before, i, Bar(k, m[k] + d), BarAmount);
  }

  /** Accumulating into a new key appends one bar and leaves the others as they were. */
  lemma {:induction false} BarsAppendNew(keys: seq<string>, m: map<string, int>, k: string, v: int)
    requires forall x :: x in keys ==> x in m
    requires k !in keys
    ensures Sum(Bars(keys + [k], m[k := v]), BarAmount) == Sum(Bars(keys, m), BarAmount) + v
  {
    assert Bars(keys + [k], m[k := v]) == Bars(keys, m) + [Bar(k, v)] by {
      BarsAt(keys, m);
      BarsAt(keys + [k], m[k := v]);
      forall j | 0 <= j < |keys| ensures Bars(keys + [k], m[k := v])[j] == Bars(keys, m)[j] {
        assert (keys + [k])[j] == keys[j] && keys[j] != k;
      }
    }
    SumAppend(Bars(keys, m), [Bar(k, v)], BarAmount);
  }

  /** The dictionary after the expenses `es` have been added in order:
      `m[k] = (m[k] || 0) + amount` for each. */
  function Tally(es: seq<ChartExpense>, key: ChartExpense -> string): map<string, int> {
    if es == [] then map[]
    else
      var m := Tally(es[..|es| - 1], key);
      var e := es[|es| - 1];
      m[key(e) := (if key(e) in m then m[key(e)] else 0) + e.amount]
  }

  /** The dictionary's keys in insertion order, as `Object.keys` lists them. */
  function InsertionOrder(es: seq<ChartExpense>, key: ChartExpense -> string): seq<string> {
    if es == [] then []
    else
      var ks := InsertionOrder(es[..|es| - 1], key);
      var k := key(es[|es| - 1]);
      if k in ks then ks else ks + [k]
  }

  /** The key list names each key of the dictionary once. */
  lemma {:induction false} TallyDomain(es: seq<ChartExpense>, key: ChartExpense -> string)
    ensures Distinct(InsertionOrder(es, key))
    ensures forall k :: k in Tally(es, key) <==> k in InsertionOrder(es, key)
  {
    if es != [] {
      var init, e := es[..|es| - 1], es[|es| - 1];
      TallyDomain(init, key);
      var ks := InsertionOrder(init, key);
      if key(e) !in ks {
        var ks' := ks + [key(e)];
        forall i, j | 0 <= i < j < |ks'| ensures ks'[i] != ks'[j] {
          if j == |ks| {
            assert ks'[i] in ks;
          }
        }
      }
    }
  }

  /** The key list names each key of the dictionary once, and exactly the
      keys that occur. */
  lemma {:induction false} InsertionOrderIsKeys(es: seq<ChartExpense>, key: ChartExpense -> string)
    ensures Distinct(InsertionOrder(es, key))
    ensures forall k :: k in Tally(es, key) <==> k in InsertionOrder(es, key)
    ensures forall k :: k in InsertionOrder(es, key) <==> k in KeysOf(es, key)
  {
    TallyDomain(es, key);
    if es != [] {
      var init, e := es[..|es| - 1], es[|es| - 1];
      InsertionOrderIsKeys(init, key);
      assert es == init + [e];
      assert KeysOf(es, key) == KeysOf(init, key) + {key(e)};
    }
  }

  /** Each entry of the dictionary is the total of its key, and a key that
      never occurs has total 0. */
  lemma {:induction false} TallyIsTotal(es: seq<ChartExpense>, key: ChartExpense -> string)
    ensures forall k :: TotalUnder(es, key, k) == if k in Tally(es, key) then Tally(es, key)[k] else 0
  {
    if es != [] {
      TallyIsTotal(es[..|es| - 1], key);
    }
  }

  /** One step of `TallyAddsUp`: the bars grow by the amount of the expense added. */
  lemma {:induction false} TallyAddsUpStep(ks: seq<string>, m: map<string, int>, k: string, d: int, total: int,
                                           ks': seq<string>, m': map<string, int>)
    requires forall x :: x in ks ==> x in m
    requires forall x :: x in ks' ==> x in m'
    requires Distinct(ks) && (k in ks <==> k in m)
    requires Sum(Bars(ks, m), BarAmount) == total
    requires ks' == if k in ks then ks else ks + [k]
    requires m' == m[k := (if k in m then m[k] else 0) + d]
    ensures Sum(Bars(ks', m'), BarAmount) == total + d
  {
    if k in ks {
      BarsBump(ks, m, k, d);
    } else {
      BarsAppendNew(ks, m, k, d);
    }
  }

  /** The bars read off the dictionary add up to the amounts of all the expenses. */
  lemma {:induction false} TallyAddsUp(es: seq<ChartExpense>, key: ChartExpense -> string)
    ensures forall k :: k in InsertionOrder(es, key) ==> k in Tally(es, key)
    ensures Sum(Bars(InsertionOrder(es, key), Tally(es, key)), BarAmount) == Sum(es, AmountOf)
  {
    assert forall k :: k in InsertionOrder(es, key) ==> k in Tally(es, key) by {
      TallyDomain(es, key);
    }
    if es != [] {
      var init, e := es[..|es| - 1], es[|es| - 1];
      var ks, m := InsertionOrder(init, key), Tally(init, key);
      assert && (forall x :: x in ks ==> x in m)
             && Distinct(ks) && (key(e) in ks <==> key(e) in m)
             && Sum(Bars(ks, m), BarAmount) == Sum(init, AmountOf) by {
        TallyAddsUp(init, key);
        TallyDomain(init, key);
      }
      TallyAddsUpStep(ks, m, key(e), e.amount, Sum(init, AmountOf), InsertionOrder(es, key), Tally(es, key));
      SumLast(es, AmountOf);
    }
  }

  /** The `forEach` loop that fills `catMap` or `dayMap`, and the key order
      `Object.keys` reports for it afterwards. */
  method Accumulate(es: seq<ChartExpense>, key: ChartExpense -> string) returns (totals: map<string, int>, keys: seq<string>)
    ensures totals == Tally(es, key) && keys == InsertionOrder(es, key)
  {
    totals, keys := map[], [];
    for i := 0 to |es|
      invariant totals == Tally(es[..i], key) && keys == InsertionOrder(es[..i], key)
    {
      var e := es[i];
      var k := key(e);
      assert es[..i + 1][..i] == es[..i];
      TallyDomain(es[..i], key);
      if k in totals {
        totals := totals[k := totals[k] + e.amount];
      } else {
        keys := keys + [k];
        totals := totals[k := e.amount];
      }
    }
    assert es[..|es|] == es;
  }

  /** What the two dictionaries hold, as one fact. */
  lemma Accumulated(es: seq<ChartExpense>, key: ChartExpense -> string)
    ensures var keys, totals := InsertionOrder(es, key), Tally(es, key);
            && Distinct(keys)
            && (forall k :: k in totals <==> k in keys)
            && (forall k :: k in keys <==> k in KeysOf(es, key))
            && (forall k :: k in totals ==> totals[k] == TotalUnder(es, key, k))
            && Sum(Bars(keys, totals), BarAmount) == Sum(es, AmountOf)
  {
    InsertionOrderIsKeys(es, key);
    TallyIsTotal(es, key);
    TallyAddsUp(es, key);
  }

  // ---------------------------------------------------------------- category chart

  /** `(a, b) => b.amount - a.amount` as an order: the larger amount first. */
  function ByAmountDesc(): (Bar, Bar) -> bool {
    (a: Bar, b: Bar) => a.amount >= b.amount
  }

  /** Sorted by amount, largest first, then `.slice(0, 10)`. */
  function TopBars(bars: seq<Bar>): (r: seq<Bar>)
    ensures |r| == if |bars| < TopCount then |bars| else TopCount
    ensures forall b :: b in r ==> b in bars
    ensures forall i, j :: 0 <= i < j < |r| ==> r[i].amount >= r[j].amount
    ensures forall x :: x in bars && x !in r ==> forall y :: y in r ==> y.amount >= x.amount
    ensures Distinct(bars) ==> Distinct(r)
    ensures |bars| <= TopCount ==> multiset(r) == multiset(bars)
  {
    var sorted := SortBy(bars, ByAmountDesc());
    var n := if |sorted| < TopCount then |sorted| else TopCount;
    TopBarsProperties(bars, sorted, n);
    sorted[..n]
  }

  lemma TopBarsProperties(bars: seq<Bar>, sorted: seq<Bar>, n: nat)
    requires sorted == SortBy(bars, ByAmountDesc()) && n <= |sorted|
    ensures SortedBy(sorted, ByAmountDesc())
    ensures forall x :: x in bars && x !in sorted[..n] ==> forall y :: y in sorted[..n] ==> y.amount >= x.amount
    ensures Distinct(bars) ==> Distinct(sorted[..n])
    ensures n == |sorted| ==> multiset(sorted[..n]) == multiset(bars)
  {
    if n == |sorted| {
      assert sorted[..n] == sorted;
    }
    assert TotalPreorder(ByAmountDesc());
    PrefixDominates(sorted, n);
    if Distinct(bars) {
      DistinctPermutation(bars, sorted);
    }
  }

  /** In a list sorted by amount, largest first, everything after the first
      `n` is no larger than anything in them. */
  lemma PrefixDominates(sorted: seq<Bar>, n: nat)
    requires SortedBy(sorted, ByAmountDesc()) && n <= |sorted|
    ensures forall x :: x in sorted && x !in sorted[..n] ==> forall y :: y in sorted[..n] ==> y.amount >= x.amount
  {
    forall x | x in sorted && x !in sorted[..n] ensures forall y :: y in sorted[..n] ==> y.amount >= x.amount {
      var j :| 0 <= j < |sorted| && sorted[j] == x;
      assert j >= n;
      forall y | y in sorted[..n] ensures y.amount >= x.amount {
        var i :| 0 <= i < n && sorted[i] == y;
      }
    }
  }

  /** The category chart: at most ten bars, one per category name, each
      with that name's total, largest first; a name left out has a total no
      larger than any bar shown, and then all ten places are taken. */
  ghost predicate IsCategorySeries(es: seq<ChartExpense>, cd: seq<Bar>) {
    var names := KeysOf(es, CategoryLabel);
    && |cd| == (if |names| < TopCount then |names| else TopCount)
    && (forall i, j :: 0 <= i < j < |cd| ==> cd[i].key != cd[j].key && cd[i].amount >= cd[j].amount)
    && (forall b :: b in cd ==> b.key in names && b.amount == TotalUnder(es, CategoryLabel, b.key))
    && (forall k :: k in names && (forall b :: b in cd ==> b.key != k) ==>
          |cd| == TopCount && forall b :: b in cd ==> b.amount >= TotalUnder(es, CategoryLabel, k))
  }

  /** Bars that are distinct and whose amounts are a function of their keys have distinct keys. */
  lemma SameKeySameBar(cd: seq<Bar>, es: seq<ChartExpense>, key: ChartExpense -> string)
    requires Distinct(cd)
    requires forall b :: b in cd ==> b.amount == TotalUnder(es, key, b.key)
    ensures forall i, j :: 0 <= i < j < |cd| ==> cd[i].key != cd[j].key
  {
    forall i, j | 0 <= i < j < |cd| ensures cd[i].key != cd[j].key {
      assert cd[i] in cd && cd[j] in cd;
    }
  }

  /** A bar that does not make the top ten is no larger than any that does,
      and it can only be left out when all ten places are taken. */
  lemma LeftOutIsSmaller(bars: seq<Bar>, x: Bar)
    requires x in bars && x !in TopBars(bars)
    ensures |TopBars(bars)| == TopCount
    ensures forall b :: b in TopBars(bars) ==> b.amount >= x.amount
  {
    assert x in multiset(bars);
  }

  /** The top ten of the bars read off the category dictionary form the category chart. */
  lemma TopCategoriesAreSeries(es: seq<ChartExpense>)
    ensures var keys, totals := InsertionOrder(es, CategoryLabel), Tally(es, CategoryLabel);
            (forall k :: k in keys ==> k in totals) && IsCategorySeries(es, TopBars(Bars(keys, totals)))
  {
    var keys, totals := InsertionOrder(es, CategoryLabel), Tally(es, CategoryLabel);
    InsertionOrderIsKeys(es, CategoryLabel);
    TallyIsTotal(es, CategoryLabel);
    TopCategoriesSize(es, keys, totals);
    TopCategoriesMembers(es, keys, totals);
    TopCategoriesOrdered(es, keys, totals);
    TopCategoriesLeftOut(es, keys, totals);
  }

  lemma TopCategoriesSize(es: seq<ChartExpense>, keys: seq<string>, totals: map<string, int>)
    requires Distinct(keys) && forall k :: k in keys ==> k in totals
    requires forall k :: k in keys <==> k in KeysOf(es, CategoryLabel)
    ensures var n := |KeysOf(es, CategoryLabel)|;
            |TopBars(Bars(keys, totals))| == if n < TopCount then n else TopCount
  {
    KeysCount(es, CategoryLabel, keys);
  }

  lemma TopCategoriesMembers(es: seq<ChartExpense>, keys: seq<string>, totals: map<string, int>)
    requires forall k :: k in keys ==> k in totals
    requires forall k :: k in keys <==> k in KeysOf(es, CategoryLabel)
    requires forall k :: k in totals ==> totals[k] == TotalUnder(es, CategoryLabel, k)
    ensures forall b :: b in TopBars(Bars(keys, totals)) ==>
              b.key in KeysOf(es, CategoryLabel) && b.amount == TotalUnder(es, CategoryLabel, b.key)
  {
    BarsMembers(keys, totals);
  }

  lemma TopCategoriesOrdered(es: seq<ChartExpense>, keys: seq<string>, totals: map<string, int>)
    requires Distinct(keys) && forall k :: k in keys ==> k in totals
    requires forall k :: k in totals ==> totals[k] == TotalUnder(es, CategoryLabel, k)
    ensures var cd := TopBars(Bars(keys, totals));
            forall i, j :: 0 <= i < j < |cd| ==> cd[i].key != cd[j].key && cd[i].amount >= cd[j].amount
  {
    var cd := TopBars(Bars(keys, totals));
    BarsMembers(keys, totals);
    BarsDistinct(keys, totals);
    SameKeySameBar(cd, es, CategoryLabel);
  }

  lemma TopCategoriesLeftOut(es: seq<ChartExpense>, keys: seq<string>, totals: map<string, int>)
    requires forall k :: k in keys ==> k in totals
    requires forall k :: k in keys <==> k in KeysOf(es, CategoryLabel)
    requires forall k :: k in totals ==> totals[k] == TotalUnder(es, CategoryLabel, k)
    ensures var cd := TopBars(Bars(keys, totals));
            forall k :: k in KeysOf(es, CategoryLabel) && (forall b :: b in cd ==> b.key != k) ==>
              |cd| == TopCount && forall b :: b in cd ==> b.amount >= TotalUnder(es, CategoryLabel, k)
  {
    var bars := Bars(keys, totals);
    var cd := TopBars(bars);
    BarsMembers(keys, totals);
    forall k | k in KeysOf(es, CategoryLabel) && (forall b :: b in cd ==> b.key != k)
      ensures |cd| == TopCount && forall b :: b in cd ==> b.amount >= TotalUnder(es, CategoryLabel, k)
    {
      var x := Bar(k, totals[k]);
      assert x in bars && x !in cd;
      LeftOutIsSmaller(bars, x);
    }
  }

  /** The category block of the `useMemo` aggregation: accumulate by category name, then the top ten. */
  method CategorySeries(es: seq<ChartExpense>) returns (cd: seq<Bar>)
    ensures IsCategorySeries(es, cd)
  {
    var totals, keys := Accumulate(es, CategoryLabel);
    TopCategoriesAreSeries(es);
    cd := TopBars(Bars(keys, totals));
  }

  // ---------------------------------------------------------------- daily chart

  /** `Object.keys(dayMap).sort()`: code-unit order of the key text. */
  function KeyOrder(): (string, string) -> bool {
    (a: string, b: string) => LexLe(a, b)
  }

  lemma KeyOrderIsTotalPreorder()
    ensures TotalPreorder(KeyOrder())
  {
    forall a, b ensures LexLe(a, b) || LexLe(b, a) {
      LexLeTotal(a, b);
    }
    forall a, b, c | LexLe(a, b) && LexLe(b, c) ensures LexLe(a, c) {
      LexLeTransitive(a, b, c);
    }
  }

  /** The daily chart: one bar per day key, keys strictly ascending, each
      with that day's total; the bars add up to the total spending. */
  ghost predicate IsDailySeries(es: seq<ChartExpense>, dd: seq<Bar>) {
    && (forall i, j :: 0 <= i < j < |dd| ==> LexLe(dd[i].key, dd[j].key) && dd[i].key != dd[j].key)
    && (forall k :: k in KeysOf(es, DayOf) <==> exists b :: b in dd && b.key == k)
    && (forall b :: b in dd ==> b.amount == TotalUnder(es, DayOf, b.key))
    && |dd| == |KeysOf(es, DayOf)|
    && Sum(dd, BarAmount) == Sum(es, AmountOf)
  }

  /** The daily block of the `useMemo` aggregation: accumulate by day key, sort the keys, read the amounts
      back (the display label derived from each key is not modelled). */
  method DailySeries(es: seq<ChartExpense>) returns (dd: seq<Bar>)
    ensures IsDailySeries(es, dd)
  {
    var totals, keys := Accumulate(es, DayOf);
    SortedDaysAreSeries(es);
    var sortedKeys := SortBy(keys, KeyOrder());
    dd := Bars(sortedKeys, totals);
  }

  /** The bars read off the day dictionary in sorted key order form the daily chart. */
  lemma SortedDaysAreSeries(es: seq<ChartExpense>)
    ensures var keys, totals := InsertionOrder(es, DayOf), Tally(es, DayOf);
            (forall k :: k in SortBy(keys, KeyOrder()) ==> k in totals)
            && IsDailySeries(es, Bars(SortBy(keys, KeyOrder()), totals))
  {
    var keys, totals := InsertionOrder(es, DayOf), Tally(es, DayOf);
    var sortedKeys := SortBy(keys, KeyOrder());
    assert && Distinct(keys)
           && (forall k :: k in keys <==> k in KeysOf(es, DayOf))
           && (forall k :: k in sortedKeys ==> k in totals)
           && (forall k :: k in sortedKeys <==> k in KeysOf(es, DayOf)) by {
      InsertionOrderIsKeys(es, DayOf);
    }
    assert forall k :: k in totals ==> totals[k] == TotalUnder(es, DayOf, k) by {
      TallyIsTotal(es, DayOf);
    }
    assert Distinct(sortedKeys) by {
      DistinctPermutation(keys, sortedKeys);
    }
    assert SortedBy(sortedKeys, KeyOrder()) by {
      KeyOrderIsTotalPreorder();
    }
    KeysCount(es, DayOf, keys);
    SortedDaysOrdered(sortedKeys, totals);
    SortedDaysMembers(es, sortedKeys, totals);
    SortedDaysAddUp(es, keys, sortedKeys, totals);
  }

  lemma SortedDaysOrdered(sortedKeys: seq<string>, totals: map<string, int>)
    requires forall k :: k in sortedKeys ==> k in totals
    requires Distinct(sortedKeys) && SortedBy(sortedKeys, KeyOrder())
    ensures var dd := Bars(sortedKeys, totals);
            forall i, j :: 0 <= i < j < |dd| ==> LexLe(dd[i].key, dd[j].key) && dd[i].key != dd[j].key
  {
    BarsAt(sortedKeys, totals);
  }

  lemma SortedDaysMembers(es: seq<ChartExpense>, sortedKeys: seq<string>, totals: map<string, int>)
    requires forall k :: k in sortedKeys ==> k in totals
    requires forall k :: k in sortedKeys <==> k in KeysOf(es, DayOf)
    requires forall k :: k in totals ==> totals[k] == TotalUnder(es, DayOf, k)
    ensures var dd := Bars(sortedKeys, totals);
            && (forall k :: k in KeysOf(es, DayOf) <==> exists b :: b in dd && b.key == k)
            && (forall b :: b in dd ==> b.amount == TotalUnder(es, DayOf, b.key))
  {
    var dd := Bars(sortedKeys, totals);
    BarsMembers(sortedKeys, totals);
    forall k | k in KeysOf(es, DayOf) ensures exists b :: b in dd && b.key == k {
      assert Bar(k, totals[k]) in dd;
    }
  }

  lemma SortedDaysAddUp(es: seq<ChartExpense>, keys: seq<string>, sortedKeys: seq<string>, totals: map<string, int>)
    requires keys == InsertionOrder(es, DayOf) && totals == Tally(es, DayOf)
    requires multiset(sortedKeys) == multiset(keys)
    ensures forall k :: k in sortedKeys ==> k in totals
    ensures Sum(Bars(sortedKeys, totals), BarAmount) == Sum(es, AmountOf)
  {
    TallyDomain(es, DayOf);
    TallyAddsUp(es, DayOf);
    DistinctPermutation(keys, sortedKeys);
    SameMultisetSameMembers(keys, sortedKeys);
    BarsMembers(keys, totals);
    BarsMembers(sortedKeys, totals);
    BarsDistinct(keys, totals);
    BarsDistinct(sortedKeys, totals);
    DistinctSameMembers(Bars(keys, totals), Bars(sortedKeys, totals));
    SumPermutation(Bars(keys, totals), Bars(sortedKeys, totals), BarAmount);
  }

  // ---------------------------------------------------------------- statistics

  /** `Math.max(...amounts, 0)`: the largest amount, or 0 when every amount is negative. */
  function MaxAmount(es: seq<ChartExpense>): (r: int)
    ensures r >= 0
    ensures forall e :: e in es ==> e.amount <= r
    ensures r == 0 || exists e :: e in es && e.amount == r
  {
    if es == [] then 0
    else
      var m := MaxAmount(es[1..]);
      assert forall e :: e in es ==> e == es[0] || e in es[1..];
      if es[0].amount > m then es[0].amount else m
  }

  /** `total / count` in floating point, here exact. */
  function Mean(total: int, n: nat): (r: real)
    requires n > 0
    ensures r * (n as real) == total as real
  {
    total as real / n as real
  }

  /** The statistics of the `useMemo` aggregation: total, average per transaction, largest amount,
      and the number of distinct days; all zero for an empty list. */
  function ChartStats(es: seq<ChartExpense>): (r: Stats)
    ensures es == [] ==> r == Stats(0, 0.0, 0, 0)
    ensures r.total == Sum(es, AmountOf)
    ensures es != [] ==> r.avg == Mean(r.total, |es|)
    ensures r.max >= 0 && forall e :: e in es ==> e.amount <= r.max
    ensures r.max == 0 || exists e :: e in es && e.amount == r.max
    ensures r.count == |KeysOf(es, DayOf)| && r.count <= |es|
  {
    KeysOfBound(es, DayOf);
    if es == [] then Stats(0, 0.0, 0, 0)
    else
      var total := Sum(es, AmountOf);
      Stats(total, Mean(total, |es|), MaxAmount(es), |KeysOf(es, DayOf)|)
  }

  /** `count` counts days, not transactions: two expenses on the same day count once. */
  lemma SameDayCountsOnce(a: ChartExpense, b: ChartExpense)
    requires DayKey(a.date) == DayKey(b.date)
    ensures ChartStats([a, b]).count == 1
  {
    assert a in [a, b] && DayOf(a) == DayKey(a.date);
    assert forall e :: e in [a, b] ==> DayOf(e) == DayKey(a.date);
    assert KeysOf([a, b], DayOf) == {DayKey(a.date)};
  }

  /** The whole `useMemo` block. */
  method ChartData(expenses: seq<ChartExpense>) returns (categoryData: seq<Bar>, dailyData: seq<Bar>, stats: Stats)
    ensures expenses == [] ==> categoryData == [] && dailyData == [] && stats == Stats(0, 0.0, 0, 0)
    ensures stats == ChartStats(expenses)
    ensures IsCategorySeries(expenses, categoryData)
    ensures IsDailySeries(expenses, dailyData)
    ensures stats.count == |dailyData| && Sum(dailyData, BarAmount) == stats.total
  {
    if |expenses| == 0 {
      assert KeysOf(expenses, CategoryLabel) == {} && KeysOf(expenses, DayOf) == {};
      return [], [], Stats(0, 0.0, 0, 0);
    }
    stats := ChartStats(expenses);
    categoryData := CategorySeries(expenses);
    dailyData := DailySeries(expenses);
  }
}
