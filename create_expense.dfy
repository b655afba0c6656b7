/** The new-expense form: its fields, which fields show an error, when the
    form may be submitted, and the request it sends. */
module CreateExpense {
  import opened Common
  import opened SharedTypes
  import opened AuthUser
  import ExpenseModel

  datatype Field = Amount | Currency | Description | ExpenseDate | Category | Association | ProjectId

  /** The form state; `association` is "project" or "other". */
  datatype ExpenseForm = ExpenseForm(
    amount: string,
    currency: string,
    description: string,
    expenseDate: string,
    category: string,
    association: string,
    projectId: string)

  function Get(f: ExpenseForm, key: Field): string
  {
    match key
    case Amount => f.amount
    case Currency => f.currency
    case Description => f.description
    case ExpenseDate => f.expenseDate
    case Category => f.category
    case Association => f.association
    case ProjectId => f.projectId
  }

  /** `{...prev, [key]: value}` */
  function With(f: ExpenseForm, key: Field, value: string): (r: ExpenseForm)
    ensures Get(r, key) == value
    ensures forall k :: k != key ==> Get(r, k) == Get(f, k)
  {
    match key
    case Amount => f.(amount := value)
    case Currency => f.(currency := value)
    case Description => f.(description := value)
    case ExpenseDate => f.(expenseDate := value)
    case Category => f.(category := value)
    case Association => f.(association := value)
    case ProjectId => f.(projectId := value)
  }

  /** The fields that must not be blank; `projectId` is required only for a
      project expense. */
  const RequiredKeys: set<Field> := {Amount, Currency, Description, ExpenseDate, Category, Association}

  /** The values the category select offers. */
  const CategoryOptions: set<string> := ExpenseModel.Categories + {""}

  /** `canCreate`: a numeric amount, non-blank currency, description and
      date, a chosen category, and a project unless the expense is "other". */
  predicate CanCreateForm(rt: Runtime, f: ExpenseForm)
  {
    && IsNumeric(rt, f.amount)
    && !IsBlank(f.currency)
    && !IsBlank(f.description)
    && !IsBlank(f.expenseDate)
    && f.category != ""
    && (f.association == "other" || !IsBlank(f.projectId))
  }

  /** The request body `onSubmit` sends. */
  datatype ExpensePayload = ExpensePayload(
    amount: Number,
    currency: string,
    userId: string,
    description: string,
    expenseDate: Date,
    category: string,
    projectAllocations: seq<Allocation>)

  function SumPercentages(allocs: seq<Allocation>): real
  {
    if allocs == [] then 0.0 else allocs[0].percentage + SumPercentages(allocs[1..])
  }

  /** The payload for a form: a project expense is allocated 100% to its
      project with the whole amount, an "other" expense to no project. */
  function BuildPayload(rt: Runtime, f: ExpenseForm, ownerId: string): (p: ExpensePayload)
    ensures p.amount == rt.number(f.amount) && p.userId == ownerId
    ensures p.currency == f.currency && p.description == f.description && p.category == f.category
    ensures p.expenseDate == rt.inputToDate(f.expenseDate)
    ensures f.association == "project" ==> p.projectAllocations == [Allocation(f.projectId, 100.0, p.amount)]
    ensures f.association != "project" ==> p.projectAllocations == []
  {
    var amountNum := rt.number(f.amount);
    ExpensePayload(amountNum, f.currency, ownerId, f.description, rt.inputToDate(f.expenseDate), f.category,
      if f.association == "project" then [Allocation(f.projectId, 100.0, amountNum)] else [])
  }

  /** Allocations, when present, add up to 100 percent and carry the whole
      amount. */
  lemma PayloadAllocationsComplete(rt: Runtime, f: ExpenseForm, ownerId: string)
    ensures var p := BuildPayload(rt, f, ownerId);
      p.projectAllocations != [] ==>
        SumPercentages(p.projectAllocations) == 100.0
        && forall a :: a in p.projectAllocations ==> a.amount == p.amount
  {
  }

  /** The schema fields of the payload as the server's expense model reads
      them (the allocations are not schema paths). */
  function ServerData(p: ExpensePayload): ExpenseModel.ExpenseData
  {
    ExpenseModel.ExpenseData(None, Some(p.userId), if p.amount.Num? then Some(p.amount.value) else None,
      Some(p.currency), Some(p.description), Some(p.category), Some(p.expenseDate))
  }

  /** A payload sent from a submittable form with a category from the
      select passes the server's schema validation. */
  lemma SubmittableFormPassesSchema(rt: Runtime, f: ExpenseForm, ownerId: string)
    requires CanCreateForm(rt, f) && f.category in CategoryOptions && ownerId != ""
    ensures ExpenseModel.ValidExpenseData(ServerData(BuildPayload(rt, f, ownerId)))
  {
    var d := ServerData(BuildPayload(rt, f, ownerId));
    assert IsBlank("");
    assert d.amount.Some? by { assert rt.number(f.amount).Num?; }
    assert ExpenseModel.RequiredString(d.currency) by { assert f.currency != ""; }
    assert d.category.GetOr("other") in ExpenseModel.Categories by { assert d.category == Some(f.category); }
  }

  /** No value the category or association select offers, other than "",
      is blank. */
  lemma SelectValueNotBlank(v: string)
    requires v in ExpenseModel.Categories + {"project", "other"}
    ensures !IsBlank(v)
  {
    assert |v| > 0 && !IsSpace(v[0]);
    BlankIffAllSpace(v);
  }

  /** A category chosen in the select is not blank. */
  lemma ChosenCategoryNotBlank(v: string)
    requires v in CategoryOptions && v != ""
    ensures !IsBlank(v)
  {
    assert v in ExpenseModel.Categories;
    SelectValueNotBlank(v);
  }

  /** What a submit did. */
  datatype Submission =
    | NothingSent                      // the form was not submittable
    | Thrown(message: string)          // an error was thrown before any request
    | Sent(payload: ExpensePayload)

  class CreateExpensePage {
    var form: ExpenseForm
    var touched: set<Field>
    var submitted: bool

    /** The initial form: USD, today's date, category "other", association
        "project"; nothing touched or submitted. */
    constructor (today: string)
      ensures form == ExpenseForm("", "USD", "", today, "other", "project", "")
      ensures touched == {} && !submitted
    {
      form := ExpenseForm("", "USD", "", today, "other", "project", "");
      touched := {};
      submitted := false;
    }

    predicate CanCreate(rt: Runtime)
      reads this
    {
      CanCreateForm(rt, form)
    }

    /** `isFieldInvalid`: no error before a submit or a touch of that field;
      then a blank required field, or a blank project for a project
      expense. */
    function IsFieldInvalid(key: Field): (r: bool)
      reads this
      ensures !(submitted || key in touched) ==> !r
      ensures key == ProjectId ==> (r <==> (submitted || key in touched) && form.association == "project" && IsBlank(form.projectId))
      ensures key != ProjectId ==> (r <==> (submitted || key in touched) && key in RequiredKeys && IsBlank(Get(form, key)))
    {
      var showError := submitted || key in touched;
      if !showError then false
      else if key == ProjectId then form.association == "project" && IsBlank(form.projectId)
      else if key !in RequiredKeys then false
      else IsBlank(Get(form, key))
    }

    /** A submittable form, with the association and category the selects
        offer, shows no field error. */
    lemma SubmittableShowsNoErrors(rt: Runtime)
      requires CanCreate(rt) && form.association in {"project", "other"} && form.category in CategoryOptions
      ensures forall key :: !IsFieldInvalid(key)
    {
      ChosenCategoryNotBlank(form.category);
      SelectValueNotBlank(form.association);
      forall key
        ensures !IsFieldInvalid(key)
      {
        match key
        case Amount => assert !IsBlank(form.amount);
        case Category => assert !IsBlank(form.category);
        case Association => assert !IsBlank(form.association);
        case ProjectId =>
        case _ =>
      }
    }

    /** The submit button is enabled exactly when the form can be created
        and no request is pending. */
    predicate SubmitEnabled(rt: Runtime, pending: bool)
      reads this
    {
      CanCreate(rt) && !pending
    }

    /** `onChange(key, value)` */
    method OnChange(key: Field, value: string)
      modifies this
      ensures form == With(old(form), key, value)
      ensures touched == old(touched) && submitted == old(submitted)
    {
      form := With(form, key, value);
    }

    /** `markTouched(key)` */
    method MarkTouched(key: Field)
      modifies this
      ensures touched == old(touched) + {key}
      ensures form == old(form) && submitted == old(submitted)
    {
      touched := touched + {key};
    }

    /** The association select: set the association, and clear the project
        when switching to "other". */
    method OnAssociationChange(v: string)
      modifies this
      ensures form.association == v
      ensures v == "other" ==> form.projectId == ""
      ensures v != "other" ==> form.projectId == old(form.projectId)
      ensures forall k :: k != Association && k != ProjectId ==> Get(form, k) == Get(old(form), k)
      ensures touched == old(touched) && submitted == old(submitted)
    {
      OnChange(Association, v);
      if v == "other" {
        OnChange(ProjectId, "");
      }
    }

    /** `onSubmit`: mark the form submitted; send nothing unless it can be
        created; throw without a signed-in user; otherwise send the payload. */
    method OnSubmit(rt: Runtime, stored: Option<string>, parseId: string -> Option<string>) returns (s: Submission)
      modifies this
      ensures submitted && form == old(form) && touched == old(touched)
      ensures !CanCreate(rt) ==> s == NothingSent
      ensures CanCreate(rt) && !Authenticated(GetAuthUserId(stored, parseId)) ==> s == Thrown("User not authenticated")
      ensures s.Sent? <==> CanCreate(rt) && Authenticated(GetAuthUserId(stored, parseId))
      ensures s.Sent? ==> s.payload == BuildPayload(rt, form, GetAuthUserId(stored, parseId).value)
    {
      submitted := true;
      if !CanCreate(rt) {
        return NothingSent;
      }
      var ownerId := GetAuthUserId(stored, parseId);
      if !Authenticated(ownerId) {
        return Thrown("User not authenticated");
      }
      s := Sent(BuildPayload(rt, form, ownerId.value));
    }
  }
}
