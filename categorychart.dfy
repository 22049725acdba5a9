/**
 * The category breakdown of the analytics charts (`getCategoryData` in
 * `components/AnalyticsCharts.tsx`): the records of one type totalled per
 * category, coloured from a fixed palette and sorted by total.
 */
module CategoryChart {
  import opened Seqs
  import opened Types
  import opened Analytics

  /** The ten shades of the monochrome palette, in order. */
  const Colors: seq<string> := ["#ffffff", "#e5e5e5", "#cccccc", "#b3b3b3", "#999999",
    "#808080", "#666666", "#4d4d4d", "#333333", "#1a1a1a"]

  /** One slice of a category chart: the category, its total and its colour. */
  datatype CategoryEntry = CategoryEntry(name: string, value: real, color: string)

  function Category(t: Transaction): string {
    t.category
  }

  /** The per-category totals of the records of one type. */
  function CategoryTotals(txs: seq<Transaction>, k: TxType): Groups {
    GroupBy(OfType(txs, k), Category, Amount)
  }

  function Lookup(m: map<string, real>, k: string): real {
    if k in m then m[k] else 0.0
  }

  /** The `.map(([name, value], index) => ...)` step: the `i`-th entry gets colour `COLORS[i % 10]`. */
  function Colored(names: seq<string>, totals: map<string, real>): (r: seq<CategoryEntry>)
    ensures |r| == |names|
  {
    seq(|names|, i requires 0 <= i < |names| => CategoryEntry(names[i], Lookup(totals, names[i]), Colors[i % |Colors|]))
  }

  function EntryValue(e: CategoryEntry): real {
    e.value
  }

  function EntryName(e: CategoryEntry): string {
    e.name
  }

  /** `(a, b) => b.value - a.value`: larger values first. */
  function ByValueDesc(): (CategoryEntry, CategoryEntry) -> bool {
    (a: CategoryEntry, b: CategoryEntry) => b.value - a.value <= 0.0
  }

  /** `getCategoryData(type)`. */
  function CategoryData(txs: seq<Transaction>, k: TxType): seq<CategoryEntry> {
    var g := CategoryTotals(txs, k);
    SortBy(Colored(EntriesOrder(g.keys), g.sum), ByValueDesc())
  }

  /** `getCategoryData(type)`, with its `reduce` as a loop over the records of that type. */
  method GetCategoryData(txs: seq<Transaction>, k: TxType) returns (r: seq<CategoryEntry>)
    ensures r == CategoryData(txs, k)
  {
    var records := OfType(txs, k);
    var names: seq<string> := [];
    var totals: map<string, real> := map[];
    for i := 0 to |records|
      invariant names == GroupBy(records[..i], Category, Amount).keys
      invariant totals == GroupBy(records[..i], Category, Amount).sum
    {
      var t := records[i];
      GroupByStep(records, i, Category, Amount);
      if t.category in totals {
        totals := totals[t.category := totals[t.category] + t.amount];
      } else {
        names := names + [t.category];
        totals := totals[t.category := t.amount];
      }
    }
    assert records[..|records|] == records;
    r := SortBy(Colored(EntriesOrder(names), totals), ByValueDesc());
  }

  /** The entries before sorting: one per category of the type, in `Object.entries` order. */
  function CategoryEntries(txs: seq<Transaction>, k: TxType): seq<CategoryEntry> {
    var g := CategoryTotals(txs, k);
    Colored(EntriesOrder(g.keys), g.sum)
  }

  /** The entries are ordered by value, largest first. */
  lemma CategoryDataSorted(txs: seq<Transaction>, k: TxType)
    ensures forall i, j :: 0 <= i < j < |CategoryData(txs, k)| ==>
      CategoryData(txs, k)[i].value >= CategoryData(txs, k)[j].value
  {
    var c := CategoryEntries(txs, k);
    var le := ByValueDesc();
    assert Total(le);
    assert TransitiveOn(c, le);
    SortByOrdersPairs(c, le);
  }

  /** Each sorted entry is one of the entries before sorting. */
  lemma CategoryEntryOrigin(txs: seq<Transaction>, k: TxType, i: nat) returns (j: nat)
    requires i < |CategoryData(txs, k)|
    ensures j < |CategoryEntries(txs, k)| && CategoryData(txs, k)[i] == CategoryEntries(txs, k)[j]
  {
    var r, c := CategoryData(txs, k), CategoryEntries(txs, k);
    assert r[i] in multiset(r);
    assert r[i] in multiset(c);
    j :| 0 <= j < |c| && c[j] == r[i];
  }

  /** The category names in `Object.entries` order are the distinct categories of the type. */
  lemma CategoryNames(txs: seq<Transaction>, k: TxType)
    ensures Distinct(EntriesOrder(CategoryTotals(txs, k).keys))
    ensures forall c :: c in EntriesOrder(CategoryTotals(txs, k).keys) <==> c in Map(OfType(txs, k), Category)
    ensures forall c :: c in EntriesOrder(CategoryTotals(txs, k).keys) ==> c in CategoryTotals(txs, k).sum
  {
    var g := CategoryTotals(txs, k);
    GroupKeys(OfType(txs, k), Category, Amount);
    EntriesOrderPermutes(g.keys);
    forall c
      ensures c in EntriesOrder(g.keys) <==> c in g.keys
    {
      assert c in EntriesOrder(g.keys) <==> c in multiset(EntriesOrder(g.keys));
    }
  }

  /**
   * Each entry is a category of a record of the type, and its value is the
   * sum of the amounts of that type's records in that category.
   */
  lemma CategoryDataValues(txs: seq<Transaction>, k: TxType)
    ensures forall i :: 0 <= i < |CategoryData(txs, k)| ==>
      CategoryData(txs, k)[i].name in Map(OfType(txs, k), Category)
      && CategoryData(txs, k)[i].value
        == SumOf(Filter(OfType(txs, k), Matching(Category, CategoryData(txs, k)[i].name)), Amount)
  {
    var r, c := CategoryData(txs, k), CategoryEntries(txs, k);
    var names := EntriesOrder(CategoryTotals(txs, k).keys);
    CategoryNames(txs, k);
    forall i | 0 <= i < |r|
      ensures r[i].name in Map(OfType(txs, k), Category)
      ensures r[i].value == SumOf(Filter(OfType(txs, k), Matching(Category, r[i].name)), Amount)
    {
      var j := CategoryEntryOrigin(txs, k, i);
      assert names[j] in names;
      GroupSum(OfType(txs, k), Category, Amount, names[j]);
    }
  }

  /** An entry's colour is `COLORS[i % 10]` for the position `i` of its category in `Object.entries` order. */
  lemma CategoryDataColors(txs: seq<Transaction>, k: TxType)
    ensures forall i :: 0 <= i < |CategoryData(txs, k)| ==>
      CategoryData(txs, k)[i].name in EntriesOrder(CategoryTotals(txs, k).keys)
      && CategoryData(txs, k)[i].color
        == Colors[Position(EntriesOrder(CategoryTotals(txs, k).keys), CategoryData(txs, k)[i].name) % 10]
  {
    var r := CategoryData(txs, k);
    var names := EntriesOrder(CategoryTotals(txs, k).keys);
    CategoryNames(txs, k);
    forall i | 0 <= i < |r|
      ensures r[i].name in names && r[i].color == Colors[Position(names, r[i].name) % 10]
    {
      var j := CategoryEntryOrigin(txs, k, i);
      PositionDistinct(names, j);
    }
  }

  /** The entries before sorting name distinct categories. */
  lemma CategoryEntriesDistinct(txs: seq<Transaction>, k: TxType)
    ensures Distinct(CategoryEntries(txs, k))
  {
    var c := CategoryEntries(txs, k);
    var names := EntriesOrder(CategoryTotals(txs, k).keys);
    CategoryNames(txs, k);
    forall x, y | 0 <= x < y < |c|
      ensures c[x] != c[y]
    {
      assert c[x].name == names[x] && c[y].name == names[y];
    }
  }

  /** No category has two entries. */
  lemma CategoryDataDistinct(txs: seq<Transaction>, k: TxType)
    ensures Distinct(Map(CategoryData(txs, k), EntryName))
  {
    var r, c := CategoryData(txs, k), CategoryEntries(txs, k);
    var names := Map(r, EntryName);
    CategoryNames(txs, k);
    forall i, j | 0 <= i < j < |names|
      ensures names[i] != names[j]
    {
      var p := CategoryEntryOrigin(txs, k, i);
      var q := CategoryEntryOrigin(txs, k, j);
      CategoryEntriesDistinct(txs, k);
      DistinctPermutation(c, r);
      assert r[i] != r[j];
      assert p != q;
    }
  }

  /** Every category of a record of the type has an entry. */
  lemma CategoryDataCovers(txs: seq<Transaction>, k: TxType)
    ensures forall c :: c in Map(OfType(txs, k), Category) ==> c in Map(CategoryData(txs, k), EntryName)
  {
    var r, c := CategoryData(txs, k), CategoryEntries(txs, k);
    var names := EntriesOrder(CategoryTotals(txs, k).keys);
    CategoryNames(txs, k);
    forall name | name in Map(OfType(txs, k), Category)
      ensures name in Map(r, EntryName)
    {
      var j :| 0 <= j < |names| && names[j] == name;
      assert c[j] in multiset(c);
      assert c[j] in multiset(r);
      var i :| 0 <= i < |r| && r[i] == c[j];
      assert Map(r, EntryName)[i] == name;
    }
  }

  /** The entries' values add up to the total amount of the type. */
  lemma CategoryDataTotal(txs: seq<Transaction>, k: TxType)
    ensures SumOf(CategoryData(txs, k), EntryValue) == SumOf(OfType(txs, k), Amount)
  {
    var g := CategoryTotals(txs, k);
    var r, c := CategoryData(txs, k), CategoryEntries(txs, k);
    var names := EntriesOrder(g.keys);
    SumPermutation(r, c, EntryValue);
    SumPointwise(c, EntryValue, names, Totals(g));
    EntriesOrderPermutes(g.keys);
    SumPermutation(names, g.keys, Totals(g));
    GroupTotal(OfType(txs, k), Category, Amount);
  }
}
