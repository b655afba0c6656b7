/** The new-project form: when it may be submitted and the request it
    sends. */
module CreateProject {
  import opened Common
  import opened SharedTypes
  import opened AuthUser

  /** The form state; `status` is one of the project statuses or "". */
  datatype ProjectForm = ProjectForm(
    name: string,
    description: string,
    status: string,
    customerName: string,
    customerPhone: string,
    customerEmail: string,
    customerAddress: string,
    currency: string,
    totalAmount: string)

  datatype Field = Name | Description | Status | CustomerName | CustomerPhone | CustomerEmail | CustomerAddress | Currency | TotalAmount

  /** The initial form: status "planning", currency "ILS", the rest empty. */
  const InitialForm: ProjectForm := ProjectForm("", "", "planning", "", "", "", "", "ILS", "")

  function Get(f: ProjectForm, key: Field): string
  {
    match key
    case Name => f.name
    case Description => f.description
    case Status => f.status
    case CustomerName => f.customerName
    case CustomerPhone => f.customerPhone
    case CustomerEmail => f.customerEmail
    case CustomerAddress => f.customerAddress
    case Currency => f.currency
    case TotalAmount => f.totalAmount
  }

  /** `{...prev, [key]: value}` */
  function With(f: ProjectForm, key: Field, value: string): (r: ProjectForm)
    ensures Get(r, key) == value
    ensures forall k :: k != key ==> Get(r, k) == Get(f, k)
  {
    match key
    case Name => f.(name := value)
    case Description => f.(description := value)
    case Status => f.(status := value)
    case CustomerName => f.(customerName := value)
    case CustomerPhone => f.(customerPhone := value)
    case CustomerEmail => f.(customerEmail := value)
    case CustomerAddress => f.(customerAddress := value)
    case Currency => f.(currency := value)
    case TotalAmount => f.(totalAmount := value)
  }

  /** `canCreate`: name and the three required customer fields are not
      blank. */
  predicate CanCreate(f: ProjectForm)
  {
    !IsBlank(f.name) && !IsBlank(f.customerName) && !IsBlank(f.customerPhone) && !IsBlank(f.customerAddress)
  }

  /** The create button is enabled exactly when the form can be created
      and no request is pending; `onSubmit` itself does not check. */
  predicate SubmitEnabled(f: ProjectForm, pending: bool)
  {
    CanCreate(f) && !pending
  }

  /** The request body `onSubmit` sends. */
  datatype ProjectPayload = ProjectPayload(
    name: string,
    description: Option<string>,
    status: string,
    customerName: string,
    customerPhone: string,
    customerEmail: Option<string>,
    customerAddress: string,
    budget: Option<Budget>,
    ownerId: string)

  /** `x || undefined` on a string: only "" becomes undefined. */
  function OrUndefined(s: string): (r: Option<string>)
    ensures r.None? <==> s == ""
    ensures r.Some? ==> r.value == s
  {
    if s == "" then None else Some(s)
  }

  /** The payload for a form: empty description and e-mail are left out, an
      empty status becomes "planning", and a budget is sent exactly when
      the total amount is not blank. */
  function BuildPayload(rt: Runtime, f: ProjectForm, ownerId: string): (p: ProjectPayload)
    ensures p.name == f.name && p.customerName == f.customerName && p.customerPhone == f.customerPhone
    ensures p.customerAddress == f.customerAddress && p.ownerId == ownerId
    ensures p.description == OrUndefined(f.description) && p.customerEmail == OrUndefined(f.customerEmail)
    ensures p.status == if f.status == "" then "planning" else f.status
    ensures p.budget.Some? <==> !IsBlank(f.totalAmount)
    ensures p.budget.Some? ==> p.budget.value == Budget(rt.number(f.totalAmount), f.currency)
  {
    var budgetAmount := if IsBlank(f.totalAmount) then None else Some(rt.number(f.totalAmount));
    ProjectPayload(
      f.name,
      OrUndefined(f.description),
      if f.status == "" then "planning" else f.status,
      f.customerName,
      f.customerPhone,
      OrUndefined(f.customerEmail),
      f.customerAddress,
      if budgetAmount.Some? then Some(Budget(budgetAmount.value, f.currency)) else None,
      ownerId)
  }

  /** A payload's status is never empty. */
  lemma PayloadStatusNeverEmpty(rt: Runtime, f: ProjectForm, ownerId: string)
    ensures BuildPayload(rt, f, ownerId).status != ""
  {
  }

  /** What a submit did. */
  datatype Submission =
    | Thrown(message: string)
    | Sent(payload: ProjectPayload)

  class CreateProjectPage {
    var form: ProjectForm

    constructor ()
      ensures form == InitialForm
    {
      form := InitialForm;
    }

    /** `onChange(key, value)` */
    method OnChange(key: Field, value: string)
      modifies this
      ensures form == With(old(form), key, value)
    {
      form := With(form, key, value);
    }

    /** `onSubmit`: throw without a signed-in user, otherwise send the
        payload; `canCreate` is not consulted. */
    method OnSubmit(rt: Runtime, stored: Option<string>, parseId: string -> Option<string>) returns (s: Submission)
      ensures !Authenticated(GetAuthUserId(stored, parseId)) ==> s == Thrown("User not authenticated")
      ensures Authenticated(GetAuthUserId(stored, parseId)) ==>
        s == Sent(BuildPayload(rt, form, GetAuthUserId(stored, parseId).value))
    {
      var ownerId := GetAuthUserId(stored, parseId);
      if !Authenticated(ownerId) {
        return Thrown("User not authenticated");
      }
      s := Sent(BuildPayload(rt, form, ownerId.value));
    }
  }
}
