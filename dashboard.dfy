/**
 * The dashboard page's state (`app/dashboard/page.tsx`) and its handlers.
 * The page keeps the full list of records, the list the record view shows
 * (which the advanced filters may narrow), the record being edited, the
 * active tab and whether the import dialog is open. Each handler that
 * changes the records calls the store first and then replaces both lists.
 */
module Dashboard {
  import opened Wrappers
  import opened Seqs
  import opened Types
  import opened Browser
  import opened Storage

  datatype Tab = Overview | Analytics

  /** The record `handleAddTransaction` hands to `addTransaction`: the form's fields with the amount parsed. */
  function DraftOf(h: Host, f: TransactionFormData): (d: NewTransaction)
    requires h.parseFloat(f.amount).Some?
    ensures d.title == f.title && d.category == f.category && d.txType == f.txType && d.date == f.date
    ensures Some(d.amount) == h.parseFloat(f.amount)
  {
    NewTransaction(f.title, h.parseFloat(f.amount).value, f.category, f.txType, f.date)
  }

  /**
   * The import dialog stores its records one at a time, each in front of the
   * last, while the page puts them in front in file order: when two or more
   * different records are imported, the page's list and the store's list
   * disagree until the page is loaded again.
   */
  lemma ImportOrderDiverges(a: Transaction, b: Transaction, base: seq<Transaction>)
    requires a != b
    ensures [a, b] + base != Reverse([a, b]) + base
  {
    assert Reverse([a, b]) == [b] + Reverse([a]);
    assert ([a, b] + base)[0] == a;
    assert (Reverse([a, b]) + base)[0] == b;
  }

  class DashboardState {
    /** Every record, as loaded from the store and updated by the handlers. */
    var transactions: seq<Transaction>
    /** The records the list shows: `transactions`, or what the advanced filters reported. */
    var filteredTransactions: seq<Transaction>
    var isLoading: bool
    var activeTab: Tab
    var editingTransaction: Option<Transaction>
    var showFilters: bool
    var showImportModal: bool
    /** The browser's record store the handlers call. */
    const store: RecordStore

    /** The first render: nothing loaded yet, the overview tab, nothing edited, no panel open. */
    constructor (store: RecordStore)
      ensures this.store == store
      ensures transactions == [] && filteredTransactions == [] && isLoading
      ensures activeTab == Overview && editingTransaction == None
      ensures !showFilters && !showImportModal
    {
      this.store := store;
      transactions := [];
      filteredTransactions := [];
      isLoading := true;
      activeTab := Overview;
      editingTransaction := None;
      showFilters := false;
      showImportModal := false;
    }

    /** No filter is active: the list shows every record. */
    predicate Unfiltered()
      reads this
    {
      filteredTransactions == transactions
    }

    /** The page's records are the store's records. */
    predicate Mirrors()
      reads this, store
    {
      transactions == store.Records()
    }

    /** The parts of the page no record handler touches. */
    twostate predicate PanelsUnchanged()
      reads this
    {
      activeTab == old(activeTab) && isLoading == old(isLoading)
      && showFilters == old(showFilters) && showImportModal == old(showImportModal)
    }

    /** `loadData`: read the store, show everything, stop loading. */
    method LoadData()
      modifies this
      ensures transactions == store.Records() && Unfiltered() && Mirrors()
      ensures !isLoading
      ensures activeTab == old(activeTab) && editingTransaction == old(editingTransaction)
      ensures showFilters == old(showFilters) && showImportModal == old(showImportModal)
    {
      var saved := store.GetTransactions();
      transactions := saved;
      filteredTransactions := saved;
      isLoading := false;
    }

    /**
     * `handleAddTransaction`. `newId` is what `crypto.randomUUID()` returns,
     * `None` when it throws: the rejection is caught and nothing changes.
     * Otherwise the stored record comes first, followed by the old records
     * without any that had its id, and the filter is dropped.
     */
    method HandleAddTransaction(h: Host, formData: TransactionFormData, newId: Option<string>, now: int)
      requires h.parseFloat(formData.amount).Some?
      modifies this, store
      ensures newId.None? ==>
        transactions == old(transactions) && filteredTransactions == old(filteredTransactions)
        && store.slot == old(store.slot) && store.updateEvents == old(store.updateEvents)
      ensures newId.Some? ==>
        var t := Stamp(DraftOf(h, formData), newId.value, now);
        transactions == [t] + RemoveById(old(transactions), t.id) && Unfiltered()
        && store.slot == (if old(store.writable) then Saved([t] + old(store.Records())) else old(store.slot))
        && store.updateEvents == old(store.updateEvents) + (if old(store.writable) then 1 else 0)
      ensures store.writable == old(store.writable)
      ensures (old(Mirrors()) && store.writable && newId.Some?
               && (forall t :: t in old(transactions) ==> t.id != newId.value)) ==> Mirrors()
      ensures editingTransaction == old(editingTransaction) && PanelsUnchanged()
    {
      match newId
      case None =>
      case Some(id) =>
        var t := store.AddTransaction(DraftOf(h, formData), id, now);
        RemoveByIdFacts(transactions, t.id);
        var updated := [t] + RemoveById(transactions, t.id);
        transactions := updated;
        filteredTransactions := updated;
    }

    /**
     * `handleUpdateTransaction`: the store replaces the record, the page
     * replaces every record with its id, drops the filter and ends editing.
     */
    method HandleUpdateTransaction(u: Transaction)
      modifies this, store
      ensures transactions == ReplaceById(old(transactions), u) && Unfiltered()
      ensures editingTransaction == None
      ensures store.writable == old(store.writable)
      ensures store.slot == (if old(store.writable) then Saved(ReplaceById(old(store.Records()), u)) else old(store.slot))
      ensures store.updateEvents == old(store.updateEvents) + (if old(store.writable) then 1 else 0)
      ensures old(Mirrors()) && store.writable ==> Mirrors()
      ensures PanelsUnchanged()
    {
      var updated := store.UpdateTransaction(u);
      var updatedTransactions := ReplaceById(transactions, updated);
      transactions := updatedTransactions;
      filteredTransactions := updatedTransactions;
      editingTransaction := None;
    }

    /** `handleEditTransaction`: the form shows the record, on the overview tab. */
    method HandleEditTransaction(t: Transaction)
      modifies this
      ensures editingTransaction == Some(t)
      ensures activeTab == Overview
      ensures transactions == old(transactions) && filteredTransactions == old(filteredTransactions)
      ensures isLoading == old(isLoading) && showFilters == old(showFilters) && showImportModal == old(showImportModal)
    {
      editingTransaction := Some(t);
      if activeTab == Analytics {
        activeTab := Overview;
      }
    }

    /** `handleCancelEdit`. */
    method HandleCancelEdit()
      modifies this
      ensures editingTransaction == None
      ensures transactions == old(transactions) && filteredTransactions == old(filteredTransactions)
      ensures PanelsUnchanged()
    {
      editingTransaction := None;
    }

    /**
     * `handleDeleteTransaction`: the store and the page drop every record with
     * the id; editing ends exactly when the record being edited has that id.
     */
    method HandleDeleteTransaction(id: string)
      modifies this, store
      ensures transactions == RemoveById(old(transactions), id) && Unfiltered()
      ensures (old(editingTransaction).Some? && old(editingTransaction).value.id == id) ==> editingTransaction == None
      ensures !(old(editingTransaction).Some? && old(editingTransaction).value.id == id) ==>
        editingTransaction == old(editingTransaction)
      ensures store.writable == old(store.writable)
      ensures store.slot == (if old(store.writable) then Saved(RemoveById(old(store.Records()), id)) else old(store.slot))
      ensures store.updateEvents == old(store.updateEvents) + (if old(store.writable) then 1 else 0)
      ensures old(Mirrors()) && store.writable ==> Mirrors()
      ensures PanelsUnchanged()
    {
      store.DeleteTransaction(id);
      var updatedTransactions := RemoveById(transactions, id);
      transactions := updatedTransactions;
      filteredTransactions := updatedTransactions;
      if editingTransaction.Some? && editingTransaction.value.id == id {
        editingTransaction := None;
      }
    }

    /** `handleFiltersChange`: only the shown list changes. */
    method HandleFiltersChange(filtered: seq<Transaction>)
      modifies this
      ensures filteredTransactions == filtered
      ensures transactions == old(transactions) && editingTransaction == old(editingTransaction)
      ensures PanelsUnchanged()
    {
      filteredTransactions := filtered;
    }

    /**
     * `handleImportComplete`: the imported records go in front, in file
     * order; the filter is dropped and the dialog closes. The store was
     * already written by the dialog.
     */
    method HandleImportComplete(imported: seq<Transaction>)
      modifies this
      ensures transactions == imported + old(transactions) && Unfiltered()
      ensures !showImportModal
      ensures editingTransaction == old(editingTransaction)
      ensures activeTab == old(activeTab) && isLoading == old(isLoading) && showFilters == old(showFilters)
    {
      var updatedTransactions := imported + transactions;
      transactions := updatedTransactions;
      filteredTransactions := updatedTransactions;
      showImportModal := false;
    }

    /** The two tab buttons. */
    method SelectTab(tab: Tab)
      modifies this
      ensures activeTab == tab
      ensures transactions == old(transactions) && filteredTransactions == old(filteredTransactions)
      ensures editingTransaction == old(editingTransaction)
      ensures isLoading == old(isLoading) && showFilters == old(showFilters) && showImportModal == old(showImportModal)
    {
      activeTab := tab;
    }

    /** The filters panel's toggle. */
    method ToggleFilters()
      modifies this
      ensures showFilters == !old(showFilters)
      ensures transactions == old(transactions) && filteredTransactions == old(filteredTransactions)
      ensures editingTransaction == old(editingTransaction)
      ensures activeTab == old(activeTab) && isLoading == old(isLoading) && showImportModal == old(showImportModal)
    {
      showFilters := !showFilters;
    }

    /** The "Import CSV" button and the dialog's close: only the dialog flag changes. */
    method SetImportModal(open: bool)
      modifies this
      ensures showImportModal == open
      ensures transactions == old(transactions) && filteredTransactions == old(filteredTransactions)
      ensures editingTransaction == old(editingTransaction)
      ensures activeTab == old(activeTab) && isLoading == old(isLoading) && showFilters == old(showFilters)
    {
      showImportModal := open;
    }
  }
}
