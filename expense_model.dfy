/** The Expense collection: documents keyed by their allocated internal ID,
    created through the ID allocator and validated against the schema. */
module ExpenseModel {
  import opened Common
  import opened Counter

  /** The values the schema's `category` enum admits. */
  const Categories: set<string> :=
    {"software", "hardware", "contractor", "marketing", "travel", "office", "utilities", "general", "other"}

  /** A stored expense document (the schema's paths). */
  datatype Expense = Expense(
    internalId: string,
    userId: string,
    amount: real,
    currency: string,
    description: Option<string>,
    category: string,
    expenseDate: Date)

  /** The schema paths a create request carries; `None` is an absent field. */
  datatype ExpenseData = ExpenseData(
    internalId: Option<string>,
    userId: Option<string>,
    amount: Option<real>,
    currency: Option<string>,
    description: Option<string>,
    category: Option<string>,
    expenseDate: Option<Date>)

  /** The schema paths an update body supplies, `internalId` among them;
      `None` leaves a path as it is. */
  datatype ExpensePatch = ExpensePatch(
    internalId: Option<string>,
    userId: Option<string>,
    amount: Option<real>,
    currency: Option<string>,
    description: Option<string>,
    category: Option<string>,
    expenseDate: Option<Date>)

  /** Mongoose's `required` validator on a string path: present and not "". */
  predicate RequiredString(v: Option<string>)
  {
    v.Some? && v.value != ""
  }

  /** Whether `{...data, internalId}` passes the schema's validators once the
      `category` default is applied. */
  predicate ValidExpenseData(data: ExpenseData)
  {
    && RequiredString(data.userId)
    && data.amount.Some?
    && RequiredString(data.currency)
    && data.expenseDate.Some?
    && data.category.GetOr("other") in Categories
  }

  /** The document `new this({...data, internalId})` saves: the allocated ID
      replaces any `internalId` in the data, `category` defaults to "other",
      and a document failing a validator is rejected. */
  function BuildExpense(data: ExpenseData, internalId: string): (r: Result<Expense, DbError>)
    ensures r.Success? <==> ValidExpenseData(data)
    ensures r.Failure? ==> r.error == ValidationError
    ensures r.Success? ==> r.value.internalId == internalId && r.value.category in Categories
    ensures r.Success? && data.category.None? ==> r.value.category == "other"
    ensures r.Success? ==>
      && Some(r.value.userId) == data.userId && Some(r.value.amount) == data.amount
      && Some(r.value.currency) == data.currency && r.value.description == data.description
      && Some(r.value.expenseDate) == data.expenseDate
  {
    if ValidExpenseData(data) then
      Success(Expense(internalId, data.userId.value, data.amount.value, data.currency.value,
                      data.description, data.category.GetOr("other"), data.expenseDate.value))
    else
      Failure(ValidationError)
  }

  /** The document `findOneAndUpdate(filter, data, {new: true})` leaves: every
      supplied field overwritten, the internal ID too, every other field
      kept. */
  function ApplyPatch(e: Expense, p: ExpensePatch): (r: Expense)
    ensures r.internalId == p.internalId.GetOr(e.internalId)
    ensures r.userId == p.userId.GetOr(e.userId) && r.amount == p.amount.GetOr(e.amount)
    ensures r.currency == p.currency.GetOr(e.currency) && r.category == p.category.GetOr(e.category)
    ensures r.expenseDate == p.expenseDate.GetOr(e.expenseDate)
    ensures r.description == if p.description.Some? then p.description else e.description
  {
    Expense(p.internalId.GetOr(e.internalId), p.userId.GetOr(e.userId), p.amount.GetOr(e.amount), p.currency.GetOr(e.currency),
            if p.description.Some? then p.description else e.description,
            p.category.GetOr(e.category), p.expenseDate.GetOr(e.expenseDate))
  }

  /** An update that supplies nothing leaves the document as it was. */
  lemma EmptyPatchIsIdentity(e: Expense)
    ensures ApplyPatch(e, ExpensePatch(None, None, None, None, None, None, None)) == e
  {
  }

  /** Applying the same update twice is the same as applying it once. */
  lemma ApplyPatchIdempotent(e: Expense, p: ExpensePatch)
    ensures ApplyPatch(ApplyPatch(e, p), p) == ApplyPatch(e, p)
  {
  }

  class ExpenseTable {
    var records: map<string, Expense>

    /** Each document is stored under its own internal ID. */
    ghost predicate Valid()
      reads this
    {
      forall id :: id in records ==> records[id].internalId == id
    }

    /** Every stored internal ID was handed out by the allocator's Expense counter. */
    ghost predicate IssuedBy(counter: CounterStore)
      reads this, counter
    {
      records.Keys <= counter.Issued("Expense")
    }

    constructor ()
      ensures Valid() && records == map[]
    {
      records := map[];
    }

    /** `listExpenses`: every stored document. */
    function ListExpenses(): (r: set<Expense>)
      reads this
      requires Valid()
      ensures forall id :: id in records ==> records[id] in r
      ensures forall e :: e in r ==> e.internalId in records && records[e.internalId] == e
    {
      records.Values
    }

    /** `getExpenseByInternalId`: the document whose `internalId` is `id`, or none. */
    function GetExpenseByInternalId(id: string): (r: Option<Expense>)
      reads this
      requires Valid()
      ensures r.Some? ==> r.value in ListExpenses() && r.value.internalId == id
      ensures r.None? ==> forall e :: e in ListExpenses() ==> e.internalId != id
    {
      if id in records then Some(records[id]) else None
    }

    /** `createExpense`: allocate the next Expense ID, then save the document
        built from the data under it. A failed allocation, a rejected
        document, or an allocated ID that an update has already given to
        another document inserts nothing. While every stored ID came from
        the allocator, the allocated ID is free. */
    method CreateExpense(counter: CounterStore, available: bool, data: ExpenseData)
      returns (r: Result<Expense, DbError>)
      requires Valid()
      modifies this, counter
      ensures Valid()
      ensures old(IssuedBy(counter)) ==> IssuedBy(counter)
      ensures !available ==> r == Failure(StorageUnavailable) && counter.counters == old(counter.counters)
      ensures available ==> counter.counters == old(counter.counters)["Expense" := old(counter.Seq("Expense")) + 1]
      ensures available ==> var id := IdFor("Expense", counter.Seq("Expense"));
        && (r.Success? <==> BuildExpense(data, id).Success? && id !in old(records))
        && (r.Success? || BuildExpense(data, id).Failure? ==> r == BuildExpense(data, id))
        && (BuildExpense(data, id).Success? && id in old(records) ==> r == Failure(DuplicateKey))
      ensures available && old(IssuedBy(counter)) ==> r == BuildExpense(data, IdFor("Expense", counter.Seq("Expense")))
      ensures r.Success? ==> r.value.internalId !in old(records) && records == old(records)[r.value.internalId := r.value]
      ensures r.Failure? ==> records == old(records)
    {
      var id := counter.NextId("Expense", available);
      if id.Failure? {
        return Failure(id.error);
      }
      r := BuildExpense(data, id.value);
      if r.Failure? {
        return;
      }
      if id.value in records {
        return Failure(DuplicateKey);
      }
      records := records[id.value := r.value];
    }

    /** `updateExpenseInternalId`: overwrite the supplied fields of the
        matching document and return it, stored under its internal ID,
        which the update may change; none when nothing matches; rejected
        by the unique index when the new internal ID is another document's. */
    method UpdateExpenseInternalId(id: string, patch: ExpensePatch) returns (r: Result<Option<Expense>, DbError>)
      requires Valid()
      modifies this
      ensures Valid()
      ensures id !in old(records) ==> r == Success(None) && records == old(records)
      ensures id in old(records) && RenameClashes(old(records), id, patch.internalId) ==>
        r == Failure(DuplicateKey) && records == old(records)
      ensures id in old(records) && !RenameClashes(old(records), id, patch.internalId) ==>
        && r == Success(Some(ApplyPatch(old(records)[id], patch)))
        && records == (old(records) - {id})[r.value.value.internalId := r.value.value]
      ensures patch.internalId.None? ==> records.Keys == old(records).Keys
    {
      if id !in records {
        return Success(None);
      }
      if RenameClashes(records, id, patch.internalId) {
        return Failure(DuplicateKey);
      }
      var updated := ApplyPatch(records[id], patch);
      records := (records - {id})[updated.internalId := updated];
      r := Success(Some(updated));
    }

    /** `deleteExpense`: remove the document with that internal ID, if any. */
    method DeleteExpense(id: string)
      requires Valid()
      modifies this
      ensures Valid()
      ensures records == old(records) - {id}
      ensures GetExpenseByInternalId(id) == None
    {
      records := records - {id};
    }
  }
}
