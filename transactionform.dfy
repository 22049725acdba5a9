/**
 * The add/edit form (`components/TransactionForm.tsx`): its field values,
 * its per-field error messages, validation, and what a submit hands to the
 * page. The amount is kept as the text of a number input; "today" is the
 * `YYYY-MM-DD` date of the clock, passed in.
 */
module TransactionForm {
  import opened Wrappers
  import opened Text
  import opened Seqs
  import opened Types
  import opened Browser

  /** The keys of `TransactionFormData`. */
  datatype Field = TitleField | AmountField | CategoryField | TypeField | DateField

  /** A field's value as the form holds it; the type as its string. */
  function FieldText(d: TransactionFormData, field: Field): string {
    match field
    case TitleField => d.title
    case AmountField => d.amount
    case CategoryField => d.category
    case TypeField => TypeName(d.txType)
    case DateField => d.date
  }

  /** `{ ...prev, [field]: value }`; the type select only offers `income` and `expense`. */
  function WithField(d: TransactionFormData, field: Field, value: string): (r: TransactionFormData)
    requires field == TypeField ==> value == "income" || value == "expense"
    ensures FieldText(r, field) == value
    ensures forall g :: g != field ==> FieldText(r, g) == FieldText(d, g)
  {
    match field
    case TitleField => d.(title := value)
    case AmountField => d.(amount := value)
    case CategoryField => d.(category := value)
    case TypeField => d.(txType := if value == "income" then Income else Expense)
    case DateField => d.(date := value)
  }

  /** The empty form: no title, amount or category, an expense, dated today. */
  function EmptyForm(today: string): TransactionFormData {
    TransactionFormData("", "", "", Expense, today)
  }

  /** The form filled from a record for editing; the amount as `amount.toString()`. */
  function FormOf(h: Host, t: Transaction): TransactionFormData {
    TransactionFormData(t.title, h.numberToString(t.amount), t.category, t.txType, t.date)
  }

  /** The categories the select offers for a type. */
  function CategoryOptions(k: TxType): (r: seq<string>)
    ensures k == Income ==> r == IncomeCategories()
    ensures k == Expense ==> r == ExpenseCategories()
  {
    if k == Income then IncomeCategories() else ExpenseCategories()
  }

  /** Each type offers its own categories, without repeats, and no category is offered for both. */
  lemma CategoryOptionsFacts(c: string)
    ensures |CategoryOptions(Income)| == 5 && |CategoryOptions(Expense)| == 9
    ensures Distinct(CategoryOptions(Income)) && Distinct(CategoryOptions(Expense))
    ensures !(c in CategoryOptions(Income) && c in CategoryOptions(Expense))
  {
    CategoryListsDisjoint();
  }

  /** Switching the type does not reset the category, which can then be one the select no longer offers. */
  lemma TypeSwitchKeepsCategory(today: string)
    ensures WithField(WithField(EmptyForm(today), CategoryField, "Salary"), TypeField, "expense").category == "Salary"
    ensures "Salary" in CategoryOptions(Income) && "Salary" !in CategoryOptions(Expense)
  {
    var salary := "Salary";
    assert salary == IncomeCategories()[0];
    CategoryListsDisjoint();
  }

  // ---------------------------------------------------------------------------
  // Validation
  // ---------------------------------------------------------------------------

  predicate TitleMissing(d: TransactionFormData) {
    Trim(d.title) == ""
  }

  /**
   * `!formData.amount || parseFloat(formData.amount) <= 0`: text that does
   * not parse gives NaN, and `NaN <= 0` is false.
   */
  predicate AmountInvalid(h: Host, d: TransactionFormData) {
    d.amount == "" || (h.parseFloat(d.amount).Some? && h.parseFloat(d.amount).value <= 0.0)
  }

  /** An amount that is not a number is not reported; a number is reported unless it is positive. */
  lemma AmountCheck(h: Host, d: TransactionFormData)
    ensures d.amount != "" && h.parseFloat(d.amount).None? ==> !AmountInvalid(h, d)
    ensures h.parseFloat(d.amount).Some? ==> (AmountInvalid(h, d) <==> d.amount == "" || h.parseFloat(d.amount).value <= 0.0)
    ensures !AmountInvalid(h, d) && h.parseFloat(d.amount).Some? ==> h.parseFloat(d.amount).value > 0.0
  {
  }

  const TitleRequired := "Title is required"
  const AmountPositive := "Amount must be greater than 0"
  const CategoryRequired := "Category is required"
  const DateRequired := "Date is required"

  /** What `handleSubmit` hands to the page. */
  datatype Submission = Rejected | Added(data: TransactionFormData) | Updated(record: Transaction)

  /**
   * The record an edit submit builds: the original with the form's title,
   * amount, category, type and date.
   */
  function Edited(h: Host, original: Transaction, d: TransactionFormData): (r: Transaction)
    requires h.parseFloat(d.amount).Some?
    ensures r.id == original.id && r.createdAt == original.createdAt
    ensures r.title == d.title && r.category == d.category && r.txType == d.txType && r.date == d.date
    ensures Some(r.amount) == h.parseFloat(d.amount)
  {
    original.(title := d.title, amount := h.parseFloat(d.amount).value, category := d.category,
              txType := d.txType, date := d.date)
  }

  /** Opening a record for editing and saving it untouched gives the same record back. */
  lemma EditUntouched(h: Host, t: Transaction)
    requires h.parseFloat(h.numberToString(t.amount)) == Some(t.amount)
    ensures Edited(h, t, FormOf(h, t)) == t
  {
  }

  class FormState {
    var formData: TransactionFormData
    /** `errors`: the fields with a message; clearing one removes it. */
    var errors: map<Field, string>
    var isSubmitting: bool
    /** `initialTransaction`, the record being edited, if any. */
    var initial: Option<Transaction>

    constructor (today: string)
      ensures formData == EmptyForm(today) && errors == map[] && !isSubmitting && initial == None
    {
      formData := EmptyForm(today);
      errors := map[];
      isSubmitting := false;
      initial := None;
    }

    /** The effect on `initialTransaction`: fill the form from the record, or empty it. */
    method LoadInitial(h: Host, t: Option<Transaction>, today: string)
      modifies this
      ensures initial == t && errors == map[] && isSubmitting == old(isSubmitting)
      ensures t.Some? ==> formData == FormOf(h, t.value)
      ensures t.None? ==> formData == EmptyForm(today)
    {
      initial := t;
      if t.Some? {
        formData := FormOf(h, t.value);
      } else {
        formData := EmptyForm(today);
      }
      errors := map[];
    }

    /**
     * `validateForm`: one message per failing check, in a fresh error list;
     * the form is valid exactly when there is none.
     */
    method ValidateForm(h: Host) returns (valid: bool)
      modifies this
      ensures TitleField in errors <==> TitleMissing(formData)
      ensures AmountField in errors <==> AmountInvalid(h, formData)
      ensures CategoryField in errors <==> formData.category == ""
      ensures DateField in errors <==> formData.date == ""
      ensures TypeField !in errors
      ensures TitleField in errors ==> errors[TitleField] == TitleRequired
      ensures AmountField in errors ==> errors[AmountField] == AmountPositive
      ensures CategoryField in errors ==> errors[CategoryField] == CategoryRequired
      ensures DateField in errors ==> errors[DateField] == DateRequired
      ensures valid <==> errors == map[]
      ensures valid <==> !(TitleMissing(formData) || AmountInvalid(h, formData) || formData.category == "" || formData.date == "")
      ensures formData == old(formData) && isSubmitting == old(isSubmitting) && initial == old(initial)
    {
      var newErrors: map<Field, string> := map[];
      if Trim(formData.title) == "" {
        newErrors := newErrors[TitleField := TitleRequired];
      }
      if formData.amount == "" || (h.parseFloat(formData.amount).Some? && h.parseFloat(formData.amount).value <= 0.0) {
        newErrors := newErrors[AmountField := AmountPositive];
      }
      if formData.category == "" {
        newErrors := newErrors[CategoryField := CategoryRequired];
      }
      if formData.date == "" {
        newErrors := newErrors[DateField := DateRequired];
      }
      errors := newErrors;
      valid := |newErrors| == 0;
      if !valid {
        assert newErrors.Keys != {};
        var k :| k in newErrors.Keys;
      }
    }

    /**
     * `handleSubmit`. The amount box is a number input, so its text is
     * either empty or a number. A valid edit hands the edited record to
     * `onUpdate`; a valid add hands the form data to `onSubmit` and empties
     * the form. An invalid form hands nothing and keeps its messages.
     */
    method HandleSubmit(h: Host, today: string) returns (out: Submission)
      requires formData.amount == "" || h.parseFloat(formData.amount).Some?
      modifies this
      ensures out.Rejected? <==>
        TitleMissing(old(formData)) || AmountInvalid(h, old(formData)) || old(formData).category == "" || old(formData).date == ""
      ensures out.Rejected? ==> formData == old(formData) && errors != map[]
      ensures out.Rejected? ==>
        (TitleField in errors <==> TitleMissing(formData)) && (AmountField in errors <==> AmountInvalid(h, formData))
        && (CategoryField in errors <==> formData.category == "") && (DateField in errors <==> formData.date == "")
        && TypeField !in errors
      ensures out.Rejected? ==>
        (TitleField in errors ==> errors[TitleField] == TitleRequired)
        && (AmountField in errors ==> errors[AmountField] == AmountPositive)
        && (CategoryField in errors ==> errors[CategoryField] == CategoryRequired)
        && (DateField in errors ==> errors[DateField] == DateRequired)
      ensures out.Updated? ==>
        old(initial).Some? && h.parseFloat(old(formData).amount).Some?
        && out.record == Edited(h, old(initial).value, old(formData)) && formData == old(formData) && errors == map[]
      ensures out.Added? ==> old(initial).None? && out.data == old(formData) && formData == EmptyForm(today) && errors == map[]
      ensures !out.Rejected? ==> (out.Updated? <==> old(initial).Some?)
      ensures out.Rejected? ==> isSubmitting == old(isSubmitting)
      ensures !out.Rejected? ==> !isSubmitting
      ensures initial == old(initial)
    {
      var valid := ValidateForm(h);
      if !valid {
        out := Rejected;
        return;
      }
      isSubmitting := true;
      if initial.Some? {
        out := Updated(Edited(h, initial.value, formData));
      } else {
        out := Added(formData);
        formData := EmptyForm(today);
      }
      errors := map[];
      isSubmitting := false;
    }

    /** `handleChange`: only the named field changes, and only its message goes. */
    method HandleChange(field: Field, value: string)
      requires field == TypeField ==> value == "income" || value == "expense"
      modifies this
      ensures formData == WithField(old(formData), field, value)
      ensures errors == old(errors) - {field}
      ensures isSubmitting == old(isSubmitting) && initial == old(initial)
    {
      formData := WithField(formData, field, value);
      if field in errors {
        errors := errors - {field};
      }
    }
  }
}
