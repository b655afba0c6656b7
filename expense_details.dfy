/** The expense details page: the edit form derived from an expense, the
    expense rebuilt from the form, and the edit/save/delete state. */
module ExpenseDetails {
  import opened Common
  import opened SharedTypes

  /** The editable fields, as the inputs hold them. */
  datatype DetailsForm = DetailsForm(
    amount: string,
    currency: string,
    description: string,
    expenseDate: string,
    category: string)

  /** `toForm`: each field as text, with "" (and "USD" for the currency)
      where the expense has none. */
  function ToForm(rt: Runtime, e: ExpenseView): (f: DetailsForm)
    ensures e.amount.None? ==> f.amount == ""
    ensures e.amount.Some? ==> f.amount == rt.numberToString(e.amount.value)
    ensures f.currency == e.currency.GetOr("USD")
    ensures f.description == e.description.GetOr("") && f.category == e.category.GetOr("")
    ensures e.expenseDate.None? ==> f.expenseDate == ""
    ensures e.expenseDate.Some? ==> f.expenseDate == rt.dateToInput(e.expenseDate.value)
  {
    DetailsForm(
      if e.amount.Some? then rt.numberToString(e.amount.value) else "",
      e.currency.GetOr("USD"),
      e.description.GetOr(""),
      if e.expenseDate.Some? then rt.dateToInput(e.expenseDate.value) else "",
      e.category.GetOr(""))
  }

  /** `toUpdatedExpense`: the expense with its five editable fields taken
      from the form and every other field kept. */
  function ToUpdatedExpense(rt: Runtime, e: ExpenseView, f: DetailsForm): (r: ExpenseView)
    ensures r.amount == Some(rt.number(f.amount)) && r.currency == Some(f.currency)
    ensures r.description == Some(f.description) && r.category == Some(f.category)
    ensures r.expenseDate == Some(rt.inputToDate(f.expenseDate))
    ensures r.internalId == e.internalId && r.userId == e.userId
    ensures r.projectAllocations == e.projectAllocations && r.allocationType == e.allocationType
    ensures r.isDeductible == e.isDeductible
  {
    e.(amount := Some(rt.number(f.amount)), currency := Some(f.currency), description := Some(f.description),
       expenseDate := Some(rt.inputToDate(f.expenseDate)), category := Some(f.category))
  }

  /** When the runtime's number and date conversions give back the text
      they read, the saved expense yields the same form again. */
  lemma SavedFormReloads(rt: Runtime, e: ExpenseView, f: DetailsForm)
    requires rt.numberToString(rt.number(f.amount)) == f.amount
    requires rt.dateToInput(rt.inputToDate(f.expenseDate)) == f.expenseDate
    ensures ToForm(rt, ToUpdatedExpense(rt, e, f)) == f
  {
  }

  /** `canSave` on a form: a numeric amount and non-blank currency,
      description, date and category. */
  predicate CanSaveForm(rt: Runtime, f: DetailsForm)
  {
    && IsNumeric(rt, f.amount)
    && !IsBlank(f.currency)
    && !IsBlank(f.description)
    && !IsBlank(f.expenseDate)
    && !IsBlank(f.category)
  }

  /** `associationLabel`, where each label is the dictionary's entry when
      it has one: "Other" without allocations, "Project: <id>" for one,
      and for several the dictionary's label or "Multiple projects (n)". */
  function AssociationLabel(other: Option<string>, project: Option<string>, multiple: Option<string>, e: ExpenseView): (r: string)
    ensures var allocs := e.projectAllocations.GetOr([]);
      && (|allocs| == 0 ==> r == other.GetOr("Other"))
      && (|allocs| == 1 ==> r == project.GetOr("Project") + ": " + allocs[0].projectId)
      && (|allocs| >= 2 && multiple.Some? ==> r == multiple.value)
      && (|allocs| >= 2 && multiple.None? ==> r == "Multiple projects (" + NatToString(|allocs|) + ")")
  {
    var allocs := e.projectAllocations.GetOr([]);
    if |allocs| == 0 then other.GetOr("Other")
    else if |allocs| == 1 then project.GetOr("Project") + ": " + allocs[0].projectId
    else multiple.GetOr("Multiple projects (" + NatToString(|allocs|) + ")")
  }

  /** A single-project label ends with that project's ID. */
  lemma SingleProjectLabelEndsWithId(other: Option<string>, project: Option<string>, multiple: Option<string>, e: ExpenseView)
    requires |e.projectAllocations.GetOr([])| == 1
    ensures var id := e.projectAllocations.value[0].projectId;
      var text := AssociationLabel(other, project, multiple, e);
      |text| >= |id| && text[|text| - |id|..] == id
  {
    var id := e.projectAllocations.value[0].projectId;
    var head := project.GetOr("Project") + ": ";
    assert AssociationLabel(other, project, multiple, e) == head + id;
    assert (head + id)[|head|..] == id;
  }

  /** The page state for one expense. */
  class ExpenseDetailsPage {
    const rt: Runtime
    /** The loaded expense, if any. */
    const expense: Option<ExpenseView>
    /** The route parameter. */
    const internalId: Option<string>
    var isEditing: bool
    var form: Option<DetailsForm>

    constructor (rt: Runtime, expense: Option<ExpenseView>, internalId: Option<string>)
      ensures this.rt == rt && this.expense == expense && this.internalId == internalId
      ensures !isEditing && form == None
    {
      this.rt := rt;
      this.expense := expense;
      this.internalId := internalId;
      isEditing := false;
      form := None;
    }

    /** `isDirty`: a form exists and differs from the loaded expense's form. */
    predicate IsDirty()
      reads this
    {
      expense.Some? && form.Some? && ToForm(rt, expense.value) != form.value
    }

    /** `canSave`: a form exists and passes the field checks. */
    predicate CanSave()
      reads this
    {
      form.Some? && CanSaveForm(rt, form.value)
    }

    /** The save button is enabled exactly when the form is dirty and valid
        and no update is pending. */
    function SaveEnabled(pending: bool): (r: bool)
      reads this
      ensures r ==> form.Some? && expense.Some? && form.value != ToForm(rt, expense.value)
      ensures r ==> CanSaveForm(rt, form.value) && !pending
      ensures IsDirty() && CanSave() && !pending ==> r
    {
      IsDirty() && CanSave() && !pending
    }

    /** `startEdit`: fill the form from the expense; nothing without one.
        The fresh form is not dirty, so it cannot be saved yet. */
    method StartEdit()
      modifies this
      ensures expense.None? ==> isEditing == old(isEditing) && form == old(form)
      ensures expense.Some? ==> isEditing && form == Some(ToForm(rt, expense.value))
      ensures expense.Some? ==> !IsDirty() && forall pending :: !SaveEnabled(pending)
    {
      if expense.None? {
        return;
      }
      form := Some(ToForm(rt, expense.value));
      isEditing := true;
    }

    /** `cancelEdit` */
    method CancelEdit()
      modifies this
      ensures !isEditing && form == None
      ensures !IsDirty() && !CanSave()
    {
      isEditing := false;
      form := None;
    }

    /** `saveEdit`: without an expense and a form nothing is sent; otherwise
        the rebuilt expense is sent, and editing ends when the update
        succeeds. */
    method SaveEdit(updateSucceeds: bool) returns (sent: Option<ExpenseView>)
      modifies this
      ensures expense.None? || old(form).None? ==> sent == None && isEditing == old(isEditing) && form == old(form)
      ensures expense.Some? && old(form).Some? ==> sent == Some(ToUpdatedExpense(rt, expense.value, old(form).value))
      ensures sent.Some? && updateSucceeds ==> !isEditing && form == None
      ensures sent.Some? && !updateSucceeds ==> isEditing == old(isEditing) && form == old(form)
    {
      if expense.None? || form.None? {
        return None;
      }
      sent := Some(ToUpdatedExpense(rt, expense.value, form.value));
      if updateSucceeds {
        isEditing := false;
        form := None;
      }
    }

    /** `onDelete`: the ID to delete, sent only with a route ID and the
        user's confirmation. */
    method OnDelete(confirmed: bool) returns (deleted: Option<string>)
      ensures deleted.Some? <==> internalId.Some? && internalId.value != "" && confirmed
      ensures deleted.Some? ==> deleted == internalId
    {
      if internalId.None? || internalId.value == "" {
        return None;
      }
      if !confirmed {
        return None;
      }
      deleted := internalId;
    }
  }
}
