/**
 * The import dialog as the dashboard page mounts it: `ImportExportModal`
 * with `onImportComplete` bound to the page's `handleImportComplete`.
 */
module ImportDialog {
  import opened Wrappers
  import opened Seqs
  import opened Types
  import opened Browser
  import FileUpload
  import Dashboard

  /**
   * An upload through the page's dialog: the file is imported into the
   * page's store, and `handleImportComplete` runs only when a record was
   * imported. A file that imports nothing leaves the page as it was, with
   * the dialog still open to show the errors.
   */
  method ImportFile(page: Dashboard.DashboardState, h: Host, text: string, ids: nat -> string, clock: nat -> int,
                    thrown: nat -> Option<string>)
    returns (results: FileUpload.ImportResults, imported: seq<Transaction>)
    modifies page, page.store
    ensures results == FileUpload.Summary(FileUpload.ImportPlan(h, thrown, text))
    ensures imported == FileUpload.Stamped(FileUpload.PlanDrafts(FileUpload.ImportPlan(h, thrown, text)), ids, clock)
    ensures page.store.writable == old(page.store.writable)
    ensures page.store.writable ==>
      page.store.Records() == Reverse(imported) + old(page.store.Records())
      && page.store.updateEvents == old(page.store.updateEvents) + |imported|
    ensures imported == [] ==>
      page.transactions == old(page.transactions) && page.filteredTransactions == old(page.filteredTransactions)
      && page.showImportModal == old(page.showImportModal)
      && page.store.slot == old(page.store.slot) && page.store.updateEvents == old(page.store.updateEvents)
    ensures imported != [] ==>
      page.transactions == imported + old(page.transactions) && page.Unfiltered() && !page.showImportModal
    ensures page.editingTransaction == old(page.editingTransaction)
    ensures page.activeTab == old(page.activeTab) && page.isLoading == old(page.isLoading)
            && page.showFilters == old(page.showFilters)
  {
    var completes;
    results, imported, completes := FileUpload.HandleFileUpload(h, text, page.store, ids, clock, thrown);
    if completes {
      page.HandleImportComplete(imported);
    }
  }
}
