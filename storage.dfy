/**
 * The record store (`utils/storage.ts`): one `localStorage` slot holding the
 * JSON list of all transactions, read whole and written whole by every
 * operation. Writing signals a `transactionUpdate` event.
 */
module Storage {
  import opened Seqs
  import opened Types

  /** The slot's content: nothing, text that does not parse, or a saved list. */
  datatype Slot = Missing | Corrupt | Saved(records: seq<Transaction>)

  /** `transactions.map(t => t.id === u.id ? u : t)`. */
  function ReplaceById(s: seq<Transaction>, u: Transaction): (r: seq<Transaction>)
    ensures |r| == |s|
    ensures forall i :: 0 <= i < |s| ==> r[i] == (if s[i].id == u.id then u else s[i])
  {
    Map(s, (t: Transaction) => if t.id == u.id then u else t)
  }

  /** `transactions.filter(t => t.id !== id)`. */
  function RemoveById(s: seq<Transaction>, id: string): (r: seq<Transaction>)
    ensures forall t :: t in r <==> t in s && t.id != id
    ensures Subseq(r, s)
  {
    var keep := (t: Transaction) => t.id != id;
    forall t ensures t in Filter(s, keep) <==> t in s && t.id != id {
      FilterMembership(s, keep, t);
    }
    FilterIsSubseq(s, keep);
    Filter(s, keep)
  }

  function Ids(s: seq<Transaction>): seq<string> {
    Map(s, (t: Transaction) => t.id)
  }

  /** Replacing keeps every record's position and id; an id not present changes nothing. */
  lemma ReplaceByIdFacts(s: seq<Transaction>, u: Transaction)
    ensures Ids(ReplaceById(s, u)) == Ids(s)
    ensures (forall t :: t in s ==> t.id != u.id) ==> ReplaceById(s, u) == s
    ensures ReplaceById(ReplaceById(s, u), u) == ReplaceById(s, u)
    ensures u.id in Ids(s) ==> u in ReplaceById(s, u)
  {
    if u.id in Ids(s) {
      var i :| 0 <= i < |s| && Ids(s)[i] == u.id;
      assert ReplaceById(s, u)[i] == u;
    }
  }

  /** Removing is idempotent, and an id not present changes nothing. */
  lemma {:induction false} RemoveByIdFacts(s: seq<Transaction>, id: string)
    ensures RemoveById(RemoveById(s, id), id) == RemoveById(s, id)
    ensures (forall t :: t in s ==> t.id != id) ==> RemoveById(s, id) == s
    ensures |RemoveById(s, id)| == |s| - |Filter(s, (t: Transaction) => t.id == id)|
  {
    var keep := (t: Transaction) => t.id != id;
    var drop := (t: Transaction) => t.id == id;
    FilterKeepsAll(Filter(s, keep), keep);
    if forall t :: t in s ==> t.id != id {
      FilterKeepsAll(s, keep);
    }
    FilterSplitLength(s, keep, drop);
  }

  /** The in-memory picture of the browser's storage slot. */
  class RecordStore {
    /** What `localStorage` holds under the transactions key. */
    var slot: Slot
    /** Whether `localStorage.setItem` succeeds; a failing write is caught and logged. */
    var writable: bool
    /** How many `transactionUpdate` events have been dispatched. */
    var updateEvents: nat

    constructor (initial: Slot, canWrite: bool)
      ensures slot == initial && writable == canWrite && updateEvents == 0
    {
      slot := initial;
      writable := canWrite;
      updateEvents := 0;
    }

    /** The list `getTransactions` reads: empty when nothing is stored or the text does not parse. */
    function Records(): (r: seq<Transaction>)
      reads this
      ensures slot.Saved? ==> r == slot.records
      ensures !slot.Saved? ==> r == []
    {
      if slot.Saved? then slot.records else []
    }

    /** `getTransactions`. */
    method GetTransactions() returns (r: seq<Transaction>)
      ensures r == Records()
    {
      match slot
      case Saved(records) => r := records;
      case _ => r := [];
    }

    /** `saveTransactions`: overwrite the slot and signal, unless the write fails. */
    method SaveTransactions(txs: seq<Transaction>)
      modifies this
      ensures writable == old(writable)
      ensures old(writable) ==> slot == Saved(txs) && updateEvents == old(updateEvents) + 1
      ensures !old(writable) ==> slot == old(slot) && updateEvents == old(updateEvents)
    {
      if writable {
        slot := Saved(txs);
        updateEvents := updateEvents + 1;
      }
    }

    /** `addTransaction`, with the new id and creation time passed in; the new record comes first. */
    method AddTransaction(draft: NewTransaction, id: string, createdAt: int) returns (t: Transaction)
      modifies this
      ensures t == Stamp(draft, id, createdAt)
      ensures writable == old(writable)
      ensures old(writable) ==> slot == Saved([t] + old(Records())) && updateEvents == old(updateEvents) + 1
      ensures !old(writable) ==> slot == old(slot) && updateEvents == old(updateEvents)
    {
      t := Stamp(draft, id, createdAt);
      var transactions := GetTransactions();
      SaveTransactions([t] + transactions);
    }

    /** `updateTransaction`: every record with the same id becomes `u`. */
    method UpdateTransaction(u: Transaction) returns (r: Transaction)
      modifies this
      ensures r == u
      ensures writable == old(writable)
      ensures old(writable) ==> slot == Saved(ReplaceById(old(Records()), u)) && updateEvents == old(updateEvents) + 1
      ensures !old(writable) ==> slot == old(slot) && updateEvents == old(updateEvents)
    {
      var transactions := GetTransactions();
      SaveTransactions(ReplaceById(transactions, u));
      r := u;
    }

    /** `deleteTransaction`: every record with this id goes. */
    method DeleteTransaction(id: string)
      modifies this
      ensures writable == old(writable)
      ensures old(writable) ==> slot == Saved(RemoveById(old(Records()), id)) && updateEvents == old(updateEvents) + 1
      ensures !old(writable) ==> slot == old(slot) && updateEvents == old(updateEvents)
    {
      var transactions := GetTransactions();
      SaveTransactions(RemoveById(transactions, id));
    }
  }
}
