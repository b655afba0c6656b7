/** The Income collection: documents keyed by their allocated internal ID,
    with the schema's defaults applied when a document is first saved. */
module IncomeModel {
  import opened Common
  import opened Counter

  /** The values the schema's `category` enum admits. */
  const Categories: set<string> := {"payment", "deposit", "bonus", "refund", "other"}

  /** The values the `paymentMethod.methodType` enum admits. */
  const MethodTypes: set<string> := {"bank_transfer", "paypal", "stripe", "cash", "check", "other"}

  datatype PaymentMethod = PaymentMethod(methodType: Option<string>, details: Option<string>)

  /** A stored income document (the schema's paths). */
  datatype Income = Income(
    internalId: string,
    projectId: string,
    userId: string,
    amount: real,
    currency: string,
    description: Option<string>,
    category: string,
    receivedDate: Date,
    paymentMethod: Option<PaymentMethod>,
    invoiceNumber: Option<string>,
    transactionId: Option<string>,
    isTaxable: bool,
    taxAmount: Option<real>)

  /** The schema paths a create request carries; `None` is an absent field. */
  datatype IncomeData = IncomeData(
    internalId: Option<string>,
    projectId: Option<string>,
    userId: Option<string>,
    amount: Option<real>,
    currency: Option<string>,
    description: Option<string>,
    category: Option<string>,
    receivedDate: Option<Date>,
    paymentMethod: Option<PaymentMethod>,
    invoiceNumber: Option<string>,
    transactionId: Option<string>,
    isTaxable: Option<bool>,
    taxAmount: Option<real>)

  /** The schema paths an update body supplies, `internalId` among them;
      `None` leaves a path as it is. */
  datatype IncomePatch = IncomePatch(
    internalId: Option<string>,
    projectId: Option<string>,
    userId: Option<string>,
    amount: Option<real>,
    currency: Option<string>,
    description: Option<string>,
    category: Option<string>,
    receivedDate: Option<Date>,
    paymentMethod: Option<PaymentMethod>,
    invoiceNumber: Option<string>,
    transactionId: Option<string>,
    isTaxable: Option<bool>,
    taxAmount: Option<real>)

  /** Mongoose's `required` validator on a string path: present and not "". */
  predicate RequiredString(v: Option<string>)
  {
    v.Some? && v.value != ""
  }

  predicate ValidPaymentMethod(pm: Option<PaymentMethod>)
  {
    pm.Some? && pm.value.methodType.Some? ==> pm.value.methodType.value in MethodTypes
  }

  /** Whether `{...data, internalId}` passes the schema's validators once the
      defaults are applied. */
  predicate ValidIncomeData(data: IncomeData)
  {
    && RequiredString(data.projectId)
    && RequiredString(data.userId)
    && data.amount.Some?
    && RequiredString(data.currency)
    && data.receivedDate.Some?
    && data.category.GetOr("other") in Categories
    && ValidPaymentMethod(data.paymentMethod)
  }

  /** The document `new this({...data, internalId})` saves: the allocated ID
      replaces any `internalId` in the data, `category` defaults to "other",
      `isTaxable` to true, and a document failing a validator is rejected. */
  function BuildIncome(data: IncomeData, internalId: string): (r: Result<Income, DbError>)
    ensures r.Success? <==> ValidIncomeData(data)
    ensures r.Failure? ==> r.error == ValidationError
    ensures r.Success? ==> r.value.internalId == internalId && r.value.category in Categories
    ensures r.Success? && data.category.None? ==> r.value.category == "other"
    ensures r.Success? && data.isTaxable.None? ==> r.value.isTaxable
    ensures r.Success? ==>
      && Some(r.value.projectId) == data.projectId && Some(r.value.userId) == data.userId
      && Some(r.value.amount) == data.amount && Some(r.value.currency) == data.currency
      && Some(r.value.receivedDate) == data.receivedDate && r.value.description == data.description
  {
    if ValidIncomeData(data) then
      Success(Income(internalId, data.projectId.value, data.userId.value, data.amount.value,
                     data.currency.value, data.description, data.category.GetOr("other"),
                     data.receivedDate.value, data.paymentMethod, data.invoiceNumber,
                     data.transactionId, data.isTaxable.GetOr(true), data.taxAmount))
    else
      Failure(ValidationError)
  }

  function Overwrite<T>(supplied: Option<T>, current: Option<T>): Option<T>
  {
    if supplied.Some? then supplied else current
  }

  /** The document `findOneAndUpdate(filter, data, {new: true})` leaves: every
      supplied field overwritten, the internal ID too, every other field
      kept. */
  function ApplyPatch(e: Income, p: IncomePatch): (r: Income)
    ensures r.internalId == p.internalId.GetOr(e.internalId)
    ensures r.projectId == p.projectId.GetOr(e.projectId) && r.userId == p.userId.GetOr(e.userId)
    ensures r.amount == p.amount.GetOr(e.amount) && r.currency == p.currency.GetOr(e.currency)
    ensures r.category == p.category.GetOr(e.category) && r.receivedDate == p.receivedDate.GetOr(e.receivedDate)
    ensures r.isTaxable == p.isTaxable.GetOr(e.isTaxable)
    ensures p.description.None? ==> r.description == e.description
    ensures p.description.Some? ==> r.description == p.description
    ensures p.paymentMethod.None? ==> r.paymentMethod == e.paymentMethod
    ensures p.paymentMethod.Some? ==> r.paymentMethod == p.paymentMethod
    ensures p.invoiceNumber.None? ==> r.invoiceNumber == e.invoiceNumber
    ensures p.invoiceNumber.Some? ==> r.invoiceNumber == p.invoiceNumber
    ensures p.transactionId.None? ==> r.transactionId == e.transactionId
    ensures p.transactionId.Some? ==> r.transactionId == p.transactionId
    ensures p.taxAmount.None? ==> r.taxAmount == e.taxAmount
    ensures p.taxAmount.Some? ==> r.taxAmount == p.taxAmount
  {
    Income(p.internalId.GetOr(e.internalId), p.projectId.GetOr(e.projectId), p.userId.GetOr(e.userId),
           p.amount.GetOr(e.amount), p.currency.GetOr(e.currency),
           Overwrite(p.description, e.description), p.category.GetOr(e.category),
           p.receivedDate.GetOr(e.receivedDate), Overwrite(p.paymentMethod, e.paymentMethod),
           Overwrite(p.invoiceNumber, e.invoiceNumber), Overwrite(p.transactionId, e.transactionId),
           p.isTaxable.GetOr(e.isTaxable), Overwrite(p.taxAmount, e.taxAmount))
  }

  class IncomeTable {
    var records: map<string, Income>

    /** Each document is stored under its own internal ID. */
    ghost predicate Valid()
      reads this
    {
      forall id :: id in records ==> records[id].internalId == id
    }

    /** Every stored internal ID was handed out by the allocator's Income counter. */
    ghost predicate IssuedBy(counter: CounterStore)
      reads this, counter
    {
      records.Keys <= counter.Issued("Income")
    }

    constructor ()
      ensures Valid() && records == map[]
    {
      records := map[];
    }

    /** `listIncomes`: every stored document. */
    function ListIncomes(): (r: set<Income>)
      reads this
      requires Valid()
      ensures forall id :: id in records ==> records[id] in r
      ensures forall e :: e in r ==> e.internalId in records && records[e.internalId] == e
    {
      records.Values
    }

    /** `getIncomeByInternalId`: the document whose `internalId` is `id`, or none. */
    function GetIncomeByInternalId(id: string): (r: Option<Income>)
      reads this
      requires Valid()
      ensures r.Some? ==> r.value in ListIncomes() && r.value.internalId == id
      ensures r.None? ==> forall e :: e in ListIncomes() ==> e.internalId != id
    {
      if id in records then Some(records[id]) else None
    }

    /** `getIncomesByProjectId`: exactly the documents of that project. */
    function GetIncomesByProjectId(projectId: string): (r: set<Income>)
      reads this
      requires Valid()
      ensures forall e :: e in r <==> e in ListIncomes() && e.projectId == projectId
    {
      set id | id in records && records[id].projectId == projectId :: records[id]
    }

    /** `createIncome`: allocate the next Income ID, then save the document
        built from the data under it. A failed allocation, a rejected
        document, or an allocated ID that an update has already given to
        another document inserts nothing. While every stored ID came from
        the allocator, the allocated ID is free. */
    method CreateIncome(counter: CounterStore, available: bool, data: IncomeData)
      returns (r: Result<Income, DbError>)
      requires Valid()
      modifies this, counter
      ensures Valid()
      ensures old(IssuedBy(counter)) ==> IssuedBy(counter)
      ensures !available ==> r == Failure(StorageUnavailable) && counter.counters == old(counter.counters)
      ensures available ==> counter.counters == old(counter.counters)["Income" := old(counter.Seq("Income")) + 1]
      ensures available ==> var id := IdFor("Income", counter.Seq("Income"));
        && (r.Success? <==> BuildIncome(data, id).Success? && id !in old(records))
        && (r.Success? || BuildIncome(data, id).Failure? ==> r == BuildIncome(data, id))
        && (BuildIncome(data, id).Success? && id in old(records) ==> r == Failure(DuplicateKey))
      ensures available && old(IssuedBy(counter)) ==> r == BuildIncome(data, IdFor("Income", counter.Seq("Income")))
      ensures r.Success? ==> r.value.internalId !in old(records) && records == old(records)[r.value.internalId := r.value]
      ensures r.Failure? ==> records == old(records)
    {
      var id := counter.NextId("Income", available);
      if id.Failure? {
        return Failure(id.error);
      }
      r := BuildIncome(data, id.value);
      if r.Failure? {
        return;
      }
      if id.value in records {
        return Failure(DuplicateKey);
      }
      records := records[id.value := r.value];
    }

    /** `updateIncomeInternalId`: overwrite the supplied fields of the
        matching document and return it, stored under its internal ID,
        which the update may change; none when nothing matches; rejected
        by the unique index when the new internal ID is another document's. */
    method UpdateIncomeInternalId(id: string, patch: IncomePatch) returns (r: Result<Option<Income>, DbError>)
      requires Valid()
      modifies this
      ensures Valid()
      ensures id !in old(records) ==> r == Success(None) && records == old(records)
      ensures id in old(records) && RenameClashes(old(records), id, patch.internalId) ==>
        r == Failure(DuplicateKey) && records == old(records)
      ensures id in old(records) && !RenameClashes(old(records), id, patch.internalId) ==>
        && r == Success(Some(ApplyPatch(old(records)[id], patch)))
        && records == (old(records) - {id})[r.value.value.internalId := r.value.value]
      ensures patch.internalId.None? ==> records.Keys == old(records).Keys
    {
      if id !in records {
        return Success(None);
      }
      if RenameClashes(records, id, patch.internalId) {
        return Failure(DuplicateKey);
      }
      var updated := ApplyPatch(records[id], patch);
      records := (records - {id})[updated.internalId := updated];
      r := Success(Some(updated));
    }

    /** `deleteIncome`: remove the document with that internal ID, if any. */
    method DeleteIncome(id: string)
      requires Valid()
      modifies this
      ensures Valid()
      ensures records == old(records) - {id}
      ensures GetIncomeByInternalId(id) == None
    {
      records := records - {id};
    }
  }
}
