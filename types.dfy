/** The record types of the application and the two category lists. */
module Types {
  import opened Wrappers
  import Seqs

  /** A record is either money coming in or money going out. */
  datatype TxType = Income | Expense

  /** The string stored in the `type` field. */
  function TypeName(t: TxType): (r: string)
    ensures r == "income" || r == "expense"
  {
    match t
    case Income => "income"
    case Expense => "expense"
  }

  /** The inverse of `TypeName`, for the two exact lower-case spellings only. */
  function ParseTxType(s: string): (r: Option<TxType>)
    ensures r.Some? <==> s == "income" || s == "expense"
    ensures r.Some? ==> TypeName(r.value) == s
  {
    if s == "income" then Some(Income)
    else if s == "expense" then Some(Expense)
    else None
  }

  lemma ParseTypeName(t: TxType)
    ensures ParseTxType(TypeName(t)) == Some(t)
  {
  }

  /** A stored transaction; `amount` is a number, `date` a date string, `createdAt` milliseconds. */
  datatype Transaction = Transaction(
    id: string,
    title: string,
    amount: real,
    category: string,
    txType: TxType,
    date: string,
    createdAt: int)

  /** A transaction without the `id` and `createdAt` the store assigns. */
  datatype NewTransaction = NewTransaction(
    title: string,
    amount: real,
    category: string,
    txType: TxType,
    date: string)

  /** The form's view of a record: the amount is still the text of the input. */
  datatype TransactionFormData = TransactionFormData(
    title: string,
    amount: string,
    category: string,
    txType: TxType,
    date: string)

  /** A new record with the given identity: the stored form of a draft. */
  function Stamp(d: NewTransaction, id: string, createdAt: int): (r: Transaction)
    ensures Draft(r) == d && r.id == id && r.createdAt == createdAt
  {
    Transaction(id, d.title, d.amount, d.category, d.txType, d.date, createdAt)
  }

  /** The fields of a record other than its identity. */
  function Draft(t: Transaction): NewTransaction {
    NewTransaction(t.title, t.amount, t.category, t.txType, t.date)
  }

  function IncomeCategories(): (r: seq<string>)
    ensures |r| == 5 && Seqs.Distinct(r)
  {
    ["Salary", "Freelance", "Investments", "Business", "Other Income"]
  }

  function ExpenseCategories(): (r: seq<string>)
    ensures |r| == 9 && Seqs.Distinct(r)
  {
    ["Housing", "Food", "Transport", "Utilities", "Entertainment", "Healthcare",
     "Shopping", "Education", "Other Expenses"]
  }

  /** No category name is both an income and an expense category. */
  lemma CategoryListsDisjoint()
    ensures forall c :: c in IncomeCategories() ==> c !in ExpenseCategories()
  {
  }
}
