/** The expense and project records as the web client receives and sends
    them. Fields the client reads with `?? default` are optional here. */
module SharedTypes {
  import opened Common

  /** One project's share of an expense. */
  datatype Allocation = Allocation(projectId: string, percentage: real, amount: Number)

  /** An expense as the client sees it. */
  datatype ExpenseView = ExpenseView(
    internalId: string,
    userId: string,
    amount: Option<Number>,
    currency: Option<string>,
    description: Option<string>,
    category: Option<string>,
    expenseDate: Option<Date>,
    projectAllocations: Option<seq<Allocation>>,
    allocationType: Option<string>,
    isDeductible: bool)

  datatype Budget = Budget(totalAmount: Number, currency: string)

  /** A project as the client sees it. */
  datatype ProjectView = ProjectView(
    internalId: string,
    name: Option<string>,
    description: Option<string>,
    ownerId: string,
    usersList: seq<string>,
    customerName: Option<string>,
    customerPhone: Option<string>,
    customerEmail: Option<string>,
    customerAddress: Option<string>,
    budget: Option<Budget>,
    status: Option<string>,
    isActive: bool,
    startDate: Option<Date>)
}
