/**
 * The record list (`components/TransactionList.tsx`): a free-text search
 * over title and category, a type selector, and deletion with a short
 * "deleting" state. The list's sort goes through `sortTransactions` of
 * `utils/calculations`, which is not part of this model.
 */
module TransactionList {
  import opened Wrappers
  import opened Text
  import opened Seqs
  import opened Types
  import opened Storage
  import opened Dashboard

  /** `filterType`: `'all'` or one of the two types. */
  datatype TypeFilter = All | Only(k: TxType)

  /** `matchesSearch`: the lower-cased term occurs in the lower-cased title or category. */
  predicate MatchesSearch(term: string, t: Transaction) {
    Contains(Lower(t.title), Lower(term)) || Contains(Lower(t.category), Lower(term))
  }

  /** `matchesType`. */
  predicate MatchesType(filter: TypeFilter, t: Transaction) {
    filter.All? || t.txType == filter.k
  }

  function Keep(term: string, filter: TypeFilter): Transaction -> bool {
    (t: Transaction) => MatchesSearch(term, t) && MatchesType(filter, t)
  }

  /** `filteredTransactions`. */
  function Visible(txs: seq<Transaction>, term: string, filter: TypeFilter): seq<Transaction> {
    Filter(txs, Keep(term, filter))
  }

  /**
   * The list shows an order-preserving selection of the records: a record
   * is shown exactly when it matches both the search and the type.
   */
  lemma VisibleMembers(txs: seq<Transaction>, term: string, filter: TypeFilter, t: Transaction)
    ensures Subseq(Visible(txs, term, filter), txs)
    ensures t in Visible(txs, term, filter) <==> t in txs && MatchesSearch(term, t) && MatchesType(filter, t)
  {
    FilterIsSubseq(txs, Keep(term, filter));
    FilterMembership(txs, Keep(term, filter), t);
  }

  /** An empty search with `'all'` shows every record. */
  lemma EmptySearchShowsAll(txs: seq<Transaction>)
    ensures Visible(txs, "", All) == txs
  {
    assert Lower("") == "";
    forall i | 0 <= i < |txs|
      ensures Keep("", All)(txs[i])
    {
      assert Contains(Lower(txs[i].title), "");
    }
    FilterKeepsAll(txs, Keep("", All));
  }

  /** The income view and the expense view split the `'all'` view between them. */
  lemma TypeViewsPartition(txs: seq<Transaction>, term: string)
    ensures Visible(txs, term, Only(Income)) == Filter(Visible(txs, term, All), (t: Transaction) => t.txType == Income)
    ensures Visible(txs, term, Only(Expense)) == Filter(Visible(txs, term, All), (t: Transaction) => t.txType == Expense)
    ensures |Visible(txs, term, Only(Income))| + |Visible(txs, term, Only(Expense))| == |Visible(txs, term, All)|
    ensures multiset(Visible(txs, term, Only(Income))) + multiset(Visible(txs, term, Only(Expense)))
            == multiset(Visible(txs, term, All))
  {
    var isIncome := (t: Transaction) => t.txType == Income;
    var isExpense := (t: Transaction) => t.txType == Expense;
    FilterFilter(txs, Keep(term, All), isIncome, Keep(term, Only(Income)));
    FilterFilter(txs, Keep(term, All), isExpense, Keep(term, Only(Expense)));
    FilterSplitLength(Visible(txs, term, All), isIncome, isExpense);
    FilterPartition(Visible(txs, term, All), isIncome, isExpense);
  }

  lemma {:induction false} LowerTwice(s: string)
    ensures Lower(Lower(s)) == Lower(s)
  {
    forall i | 0 <= i < |s|
      ensures Lower(Lower(s))[i] == Lower(s)[i]
    {
      LowerAt(Lower(s), i);
      LowerAt(s, i);
    }
  }

  /** The search ignores the case of the term. */
  lemma SearchIgnoresTermCase(term: string, t: Transaction)
    ensures MatchesSearch(term, t) <==> MatchesSearch(Lower(term), t)
  {
    LowerTwice(term);
  }

  lemma LowerKeepsOccurrence(s: string, sub: string)
    requires Contains(s, sub)
    ensures Contains(Lower(s), Lower(sub))
  {
    var k := ContainsAt(s, sub);
    forall i | 0 <= i < |sub|
      ensures Lower(s)[k..k + |sub|][i] == Lower(sub)[i]
    {
      LowerAt(s, k + i);
      LowerAt(sub, i);
    }
    ContainsWitness(Lower(s), Lower(sub), k);
  }

  /** A record whose title or category contains the term as typed is found. */
  lemma SearchFindsLiteralText(term: string, t: Transaction)
    requires Contains(t.title, term) || Contains(t.category, term)
    ensures MatchesSearch(term, t)
  {
    if Contains(t.title, term) {
      LowerKeepsOccurrence(t.title, term);
    } else {
      LowerKeepsOccurrence(t.category, term);
    }
  }

  /** What the component renders. */
  datatype ListView = NoTransactionsYet | NoResults | Rows(shown: seq<Transaction>)

  function View(txs: seq<Transaction>, term: string, filter: TypeFilter): (v: ListView)
    ensures v.NoTransactionsYet? <==> |txs| == 0
    ensures v.NoResults? <==> |txs| > 0 && |Visible(txs, term, filter)| == 0
    ensures v.Rows? ==> v.shown == Visible(txs, term, filter) && |v.shown| > 0
  {
    if |txs| == 0 then NoTransactionsYet
    else if |Visible(txs, term, filter)| == 0 then NoResults
    else Rows(Visible(txs, term, filter))
  }

  /** The list's own state: the search box, the type selector and the row being deleted. */
  class ListState {
    var searchTerm: string
    var filterType: TypeFilter
    var deletingId: Option<string>

    constructor ()
      ensures searchTerm == "" && filterType == All && deletingId == None
    {
      searchTerm := "";
      filterType := All;
      deletingId := None;
    }

    /** The rows shown for `transactions` under the current search and type. */
    function Shown(txs: seq<Transaction>): seq<Transaction>
      reads this
    {
      Visible(txs, searchTerm, filterType)
    }

    /** A row's delete button is disabled while that record is being deleted. */
    predicate RowDisabled(t: Transaction)
      reads this
    {
      deletingId == Some(t.id)
    }

    /**
     * The first half of `handleDelete`, up to the delay: when the user
     * confirms, the row is marked as being deleted.
     */
    method BeginDelete(id: string, confirmed: bool) returns (proceed: bool)
      modifies this
      ensures proceed == confirmed
      ensures confirmed ==> deletingId == Some(id)
      ensures !confirmed ==> deletingId == old(deletingId)
      ensures searchTerm == old(searchTerm) && filterType == old(filterType)
    {
      proceed := confirmed;
      if confirmed {
        deletingId := Some(id);
      }
    }

    /**
     * The second half, after the delay: `onDelete` (the dashboard's
     * handler) removes the record, and the mark is cleared.
     */
    method FinishDelete(id: string, page: DashboardState)
      modifies this, page, page.store
      ensures deletingId == None
      ensures page.transactions == RemoveById(old(page.transactions), id) && page.Unfiltered()
      ensures (old(page.editingTransaction).Some? && old(page.editingTransaction).value.id == id) ==>
        page.editingTransaction == None
      ensures !(old(page.editingTransaction).Some? && old(page.editingTransaction).value.id == id) ==>
        page.editingTransaction == old(page.editingTransaction)
      ensures page.activeTab == old(page.activeTab) && page.isLoading == old(page.isLoading)
      ensures page.showFilters == old(page.showFilters) && page.showImportModal == old(page.showImportModal)
      ensures page.store.writable == old(page.store.writable)
      ensures page.store.slot == (if old(page.store.writable) then Saved(RemoveById(old(page.store.Records()), id))
                                  else old(page.store.slot))
      ensures page.store.updateEvents == old(page.store.updateEvents) + (if old(page.store.writable) then 1 else 0)
      ensures old(page.Mirrors()) && page.store.writable ==> page.Mirrors()
      ensures searchTerm == old(searchTerm) && filterType == old(filterType)
    {
      page.HandleDeleteTransaction(id);
      deletingId := None;
    }
  }
}
