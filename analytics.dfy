/**
 * What the analytics charts (`components/AnalyticsCharts.tsx`) share: each
 * `reduce` into a dictionary is modelled by `GroupBy`, whose keys keep the
 * order they were first set in; the order `Object.entries` and
 * `Object.values` list them in is `EntriesOrder`; and the overall totals.
 */
module Analytics {
  import opened Seqs
  import opened Types

  // ---------------------------------------------------------------------------
  // Dictionaries built by `reduce`
  // ---------------------------------------------------------------------------

  /**
   * A dictionary from string keys: the keys in the order they were first set,
   * the running total of each key, and the record that first set it.
   */
  datatype Groups = Groups(keys: seq<string>, sum: map<string, real>, first: map<string, Transaction>)

  /** `acc[k] = (acc[k] || 0) + x`, remembering `t` when the key is new. */
  function Add(g: Groups, k: string, t: Transaction, x: real): Groups {
    if k in g.sum then g.(sum := g.sum[k := g.sum[k] + x])
    else Groups(g.keys + [k], g.sum[k := x], g.first[k := t])
  }

  /** The dictionary `reduce` builds when it adds `amt(t)` under `key(t)` for each record in turn. */
  function GroupBy(s: seq<Transaction>, key: Transaction -> string, amt: Transaction -> real): Groups
    decreases |s|
  {
    if s == [] then Groups([], map[], map[])
    else
      var t := s[|s| - 1];
      Add(GroupBy(s[..|s| - 1], key, amt), key(t), t, amt(t))
  }

  /** One more record added to the dictionary. */
  lemma GroupByStep(s: seq<Transaction>, i: nat, key: Transaction -> string, amt: Transaction -> real)
    requires i < |s|
    ensures GroupBy(s[..i + 1], key, amt) == Add(GroupBy(s[..i], key, amt), key(s[i]), s[i], amt(s[i]))
  {
    assert s[..i + 1][..i] == s[..i];
  }

  /** Two dictionaries have the same keys, and each key has a first record. */
  ghost predicate Aligned(inc: Groups, exp: Groups) {
    && (forall k :: k in inc.sum <==> k in exp.sum)
    && (forall k :: k in inc.sum <==> k in inc.first)
  }

  /** The total of a key; 0 for a key that was never set. */
  function SumAt(g: Groups, k: string): real {
    if k in g.sum then g.sum[k] else 0.0
  }

  function Totals(g: Groups): string -> real {
    k => SumAt(g, k)
  }

  /** The records whose key is `k`. */
  function Matching(key: Transaction -> string, k: string): Transaction -> bool {
    t => key(t) == k
  }

  /** The keys are the distinct keys of the records, each set once, and every key has a total and a first record. */
  lemma {:induction false} GroupKeys(s: seq<Transaction>, key: Transaction -> string, amt: Transaction -> real)
    ensures Distinct(GroupBy(s, key, amt).keys)
    ensures forall k :: k in GroupBy(s, key, amt).keys <==> k in Map(s, key)
    ensures forall k :: k in GroupBy(s, key, amt).sum <==> k in GroupBy(s, key, amt).keys
    ensures forall k :: k in GroupBy(s, key, amt).first <==> k in GroupBy(s, key, amt).keys
    decreases |s|
  {
    if s != [] {
      GroupKeys(s[..|s| - 1], key, amt);
    }
  }

  /** The keys and first records do not depend on what is added up. */
  lemma {:induction false} GroupKeysSame(s: seq<Transaction>, key: Transaction -> string, f: Transaction -> real, g: Transaction -> real)
    ensures GroupBy(s, key, f).keys == GroupBy(s, key, g).keys
    ensures GroupBy(s, key, f).first == GroupBy(s, key, g).first
    decreases |s|
  {
    if s != [] {
      GroupKeys(s[..|s| - 1], key, f);
      GroupKeys(s[..|s| - 1], key, g);
      GroupKeysSame(s[..|s| - 1], key, f, g);
    }
  }

  /** A key's total is the sum over the records with that key. */
  lemma {:induction false} GroupSum(s: seq<Transaction>, key: Transaction -> string, amt: Transaction -> real, k: string)
    ensures SumAt(GroupBy(s, key, amt), k) == SumOf(Filter(s, Matching(key, k)), amt)
    decreases |s|
  {
    if s != [] {
      var init, t := s[..|s| - 1], s[|s| - 1];
      GroupSum(init, key, amt, k);
      GroupKeys(init, key, amt);
      var before := Filter(init, Matching(key, k));
      if key(t) != k {
        assert Filter(s, Matching(key, k)) == before + [] == before;
      } else if k !in GroupBy(init, key, amt).sum {
        FilterDropsAll(init, Matching(key, k));
        SumSingle(t, amt);
      } else {
        assert Filter(s, Matching(key, k)) == before + [t];
        assert (before + [t])[..|before|] == before;
      }
    }
  }

  /** A key's first record is the first record with that key. */
  lemma {:induction false} GroupFirst(s: seq<Transaction>, key: Transaction -> string, amt: Transaction -> real, k: string)
    requires k in Map(s, key)
    ensures k in GroupBy(s, key, amt).first
    ensures Filter(s, Matching(key, k)) != []
    ensures GroupBy(s, key, amt).first[k] == Filter(s, Matching(key, k))[0]
    decreases |s|
  {
    var init, t := s[..|s| - 1], s[|s| - 1];
    GroupKeys(s, key, amt);
    GroupKeys(init, key, amt);
    if k in Map(init, key) {
      GroupFirst(init, key, amt, k);
    } else {
      FilterDropsAll(init, Matching(key, k));
    }
  }

  /** Nothing is lost or counted twice: the totals of the keys add up to the sum over all records. */
  lemma {:induction false} GroupTotal(s: seq<Transaction>, key: Transaction -> string, amt: Transaction -> real)
    ensures SumOf(GroupBy(s, key, amt).keys, Totals(GroupBy(s, key, amt))) == SumOf(s, amt)
    decreases |s|
  {
    if s != [] {
      var init, t := s[..|s| - 1], s[|s| - 1];
      var g0 := GroupBy(init, key, amt);
      var g := GroupBy(s, key, amt);
      GroupTotal(init, key, amt);
      GroupKeys(init, key, amt);
      if key(t) in g0.sum {
        SumBump(g0.keys, Totals(g0), Totals(g), key(t), amt(t));
      } else {
        SumExt(g0.keys, Totals(g0), Totals(g));
        assert g.keys[..|g.keys| - 1] == g0.keys;
      }
    }
  }

  // ---------------------------------------------------------------------------
  // The order of `Object.entries` / `Object.values`
  // ---------------------------------------------------------------------------

  predicate AllDigits(k: string) {
    forall i :: 0 <= i < |k| ==> '0' <= k[i] <= '9'
  }

  /** The number a string of decimal digits denotes. */
  function DigitsValue(k: string): nat
    requires AllDigits(k)
    decreases |k|
  {
    if k == [] then 0 else DigitsValue(k[..|k| - 1]) * 10 + (k[|k| - 1] as int - '0' as int)
  }

  /** An array index: the canonical decimal form of a number below 2^32 - 1. */
  predicate IsIndexKey(k: string) {
    k != [] && AllDigits(k) && (k[0] != '0' || |k| == 1) && DigitsValue(k) < 0xFFFF_FFFF
  }

  function KeyValue(k: string): nat {
    if AllDigits(k) then DigitsValue(k) else 0
  }

  function NotIndexKey(k: string): bool {
    !IsIndexKey(k)
  }

  function ByIndexValue(): (string, string) -> bool {
    (a: string, b: string) => KeyValue(a) <= KeyValue(b)
  }

  /**
   * The order in which `Object.entries` lists an object's own string keys:
   * array indices first, in ascending numeric order, then the other keys in
   * the order they were created.
   */
  function EntriesOrder(keys: seq<string>): seq<string> {
    SortBy(Filter(keys, IsIndexKey), ByIndexValue()) + Filter(keys, NotIndexKey)
  }

  /** `Object.entries` lists every key once. */
  lemma EntriesOrderPermutes(keys: seq<string>)
    ensures multiset(EntriesOrder(keys)) == multiset(keys)
    ensures Distinct(keys) ==> Distinct(EntriesOrder(keys))
  {
    FilterPartition(keys, IsIndexKey, NotIndexKey);
    if Distinct(keys) {
      DistinctPermutation(keys, EntriesOrder(keys));
    }
  }

  /** Array indices come first and in ascending order; the other keys keep their creation order. */
  lemma EntriesOrderShape(keys: seq<string>)
    ensures Filter(EntriesOrder(keys), IsIndexKey) == SortBy(Filter(keys, IsIndexKey), ByIndexValue())
    ensures Sorted(Filter(EntriesOrder(keys), IsIndexKey), ByIndexValue())
    ensures Filter(EntriesOrder(keys), NotIndexKey) == Filter(keys, NotIndexKey)
  {
    var idx := SortBy(Filter(keys, IsIndexKey), ByIndexValue());
    var rest := Filter(keys, NotIndexKey);
    SortBySorted(Filter(keys, IsIndexKey), ByIndexValue());
    FilterAppend(idx, rest, IsIndexKey);
    FilterAppend(idx, rest, NotIndexKey);
    assert forall i :: 0 <= i < |idx| ==> IsIndexKey(idx[i]) by {
      forall i | 0 <= i < |idx|
        ensures IsIndexKey(idx[i])
      {
        assert idx[i] in multiset(Filter(keys, IsIndexKey));
        FilterMembership(keys, IsIndexKey, idx[i]);
      }
    }
    FilterKeepsAll(idx, IsIndexKey);
    FilterDropsAll(idx, NotIndexKey);
    FilterKeepsAll(rest, NotIndexKey);
    FilterDropsAll(rest, IsIndexKey);
  }

  /** Keys that are not array indices are listed in creation order. */
  lemma EntriesOrderPlain(keys: seq<string>)
    requires forall i :: 0 <= i < |keys| ==> !IsIndexKey(keys[i])
    ensures EntriesOrder(keys) == keys
  {
    FilterDropsAll(keys, IsIndexKey);
    FilterKeepsAll(keys, NotIndexKey);
  }

  /** A key with a `-` in it is never an array index. */
  lemma DashNotIndex(k: string)
    requires '-' in k
    ensures !IsIndexKey(k)
  {
  }

  // ---------------------------------------------------------------------------
  // Records by type, and the totals
  // ---------------------------------------------------------------------------

  function IsType(k: TxType): Transaction -> bool {
    (t: Transaction) => t.txType == k
  }

  function Amount(t: Transaction): real {
    t.amount
  }

  /** `transactions.filter(t => t.type === type)`. */
  function OfType(txs: seq<Transaction>, k: TxType): seq<Transaction> {
    Filter(txs, IsType(k))
  }

  /** What a record adds to the income column. */
  function IncomePart(t: Transaction): real {
    if t.txType == Income then t.amount else 0.0
  }

  /** What a record adds to the expenses column: every record that is not income. */
  function ExpensePart(t: Transaction): real {
    if t.txType == Income then 0.0 else t.amount
  }

  /** `totalIncome`. */
  function TotalIncome(txs: seq<Transaction>): real {
    SumOf(OfType(txs, Income), Amount)
  }

  /** `totalExpenses`. */
  function TotalExpenses(txs: seq<Transaction>): real {
    SumOf(OfType(txs, Expense), Amount)
  }

  /** `currentBalance`. */
  function CurrentBalance(txs: seq<Transaction>): real {
    TotalIncome(txs) - TotalExpenses(txs)
  }

  /** What a record does to the balance: income adds its amount, an expense takes it away. */
  function Signed(t: Transaction): real {
    if t.txType == Income then t.amount else -t.amount
  }

  /** The totals count each record once, in the column of its type. */
  lemma TotalsByColumn(txs: seq<Transaction>)
    ensures TotalIncome(txs) == SumOf(txs, IncomePart)
    ensures TotalExpenses(txs) == SumOf(txs, ExpensePart)
    ensures TotalIncome(txs) + TotalExpenses(txs) == SumOf(txs, Amount)
    ensures CurrentBalance(txs) == SumOf(txs, Signed)
  {
    SumFilter(txs, IsType(Income), Amount, IncomePart);
    SumFilter(txs, IsType(Expense), Amount, ExpensePart);
    SumSplit(txs, Amount, IsType(Income), IsType(Expense));
    SumMinus(txs, IncomePart, ExpensePart, Signed);
  }
}
