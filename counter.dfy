/** The sequential internal-ID allocator: one persisted counter per entity
    kind, and identifiers rendered as `offset(kind) + seq`. */
module Counter {
  import opened Common

  /** Why a storage operation failed. */
  datatype DbError =
    | StorageUnavailable      // the database could not be reached
    | ValidationError         // a schema validator rejected the document
    | DuplicateKey            // a unique index rejected the document

  /** An update of the document stored under `id` supplies a new internal
      ID that another document already holds, so the unique index on
      `internalId` rejects it. */
  predicate RenameClashes<T>(records: map<string, T>, id: string, newId: Option<string>)
  {
    newId.Some? && newId.value != id && newId.value in records
  }

  /** The base offset of each entity kind; a kind missing from the table
      uses offset 0. */
  function Offset(kind: string): nat
  {
    if kind == "User" then 100000
    else if kind == "Project" then 200000
    else if kind == "Income" then 30000000
    else if kind == "Expense" then 40000000
    else 0
  }

  /** The identifier handed out when the counter of `kind` reaches `n`. */
  function IdFor(kind: string, n: nat): string
  {
    NatToString(Offset(kind) + n)
  }

  /** Every identifier handed out for `kind` while its counter went from 0 to `n`. */
  ghost function IssuedUpTo(kind: string, n: nat): set<string>
  {
    set s: nat | 1 <= s <= n :: IdFor(kind, s)
  }

  /** Within one kind, distinct counter values give distinct identifiers. */
  lemma IdForInjective(kind: string, s: nat, t: nat)
    ensures IdFor(kind, s) == IdFor(kind, t) <==> s == t
  {
    if IdFor(kind, s) == IdFor(kind, t) {
      NatToStringInjective(Offset(kind) + s, Offset(kind) + t);
    }
  }

  /** The identifier for the next counter value was never handed out before,
      and handing it out adds exactly it to the issued set. */
  lemma NextIdIsFresh(kind: string, n: nat)
    ensures IdFor(kind, n + 1) !in IssuedUpTo(kind, n)
    ensures IssuedUpTo(kind, n + 1) == IssuedUpTo(kind, n) + {IdFor(kind, n + 1)}
  {
    if IdFor(kind, n + 1) in IssuedUpTo(kind, n) {
      var s: nat :| 1 <= s <= n && IdFor(kind, s) == IdFor(kind, n + 1);
      IdForInjective(kind, s, n + 1);
    }
  }

  /** The issued set only grows as the counter advances. */
  lemma IssuedMonotonic(kind: string, m: nat, n: nat)
    requires m <= n
    ensures IssuedUpTo(kind, m) <= IssuedUpTo(kind, n)
  {
  }

  /** User and Project identifiers never meet while the User counter stays
      below 100000 (the gap between their offsets). */
  lemma UserAndProjectRangesDisjoint(u: nat, p: nat)
    requires u < 100000
    ensures IdFor("User", u) != IdFor("Project", p + 1)
  {
    if IdFor("User", u) == IdFor("Project", p + 1) {
      NatToStringInjective(100000 + u, 200000 + p + 1);
    }
  }

  /** Project and Income identifiers never meet while the Project counter
      stays below 29800000. */
  lemma ProjectAndIncomeRangesDisjoint(p: nat, i: nat)
    requires p < 29800000
    ensures IdFor("Project", p) != IdFor("Income", i + 1)
  {
    if IdFor("Project", p) == IdFor("Income", i + 1) {
      NatToStringInjective(200000 + p, 30000000 + i + 1);
    }
  }

  /** Income and Expense identifiers never meet while the Income counter
      stays below 10000000. */
  lemma IncomeAndExpenseRangesDisjoint(i: nat, e: nat)
    requires i < 10000000
    ensures IdFor("Income", i) != IdFor("Expense", e + 1)
  {
    if IdFor("Income", i) == IdFor("Expense", e + 1) {
      NatToStringInjective(30000000 + i, 40000000 + e + 1);
    }
  }

  /** The persisted counter records, one per entity kind. */
  class CounterStore {
    var counters: map<string, nat>

    /** The stored sequence value of `kind`; an absent record counts as 0. */
    function Seq(kind: string): nat
      reads this
    {
      if kind in counters then counters[kind] else 0
    }

    /** Every identifier this store has handed out for `kind`. */
    ghost function Issued(kind: string): set<string>
      reads this
    {
      IssuedUpTo(kind, Seq(kind))
    }

    constructor ()
      ensures counters == map[]
    {
      counters := map[];
    }

    /** Increment the counter of `kind` (creating it at 0 when absent) and
        return `offset(kind) + seq` in decimal. When the store cannot be
        reached nothing changes and the call fails. */
    method NextId(kind: string, available: bool) returns (r: Result<string, DbError>)
      modifies this
      ensures !available ==> r == Failure(StorageUnavailable) && counters == old(counters)
      ensures available ==> counters == old(counters)[kind := old(Seq(kind)) + 1]
      ensures available ==> r == Success(IdFor(kind, Seq(kind)))
      ensures available ==> r.value !in old(Issued(kind)) && Issued(kind) == old(Issued(kind)) + {r.value}
      ensures forall k :: k != kind ==> Seq(k) == old(Seq(k))
    {
      if !available {
        return Failure(StorageUnavailable);
      }
      var next := Seq(kind) + 1;
      NextIdIsFresh(kind, Seq(kind));
      counters := counters[kind := next];
      r := Success(IdFor(kind, next));
    }
  }

  /** The decimal rendering of the first three Project identifiers. */
  lemma FirstProjectIds()
    ensures IdFor("Project", 1) == "200001"
    ensures IdFor("Project", 2) == "200002"
    ensures IdFor("Project", 3) == "200003"
  {
    assert NatToString(2) == "2";
    assert NatToString(20) == "20";
    assert NatToString(200) == "200";
    assert NatToString(2000) == "2000";
    assert NatToString(20000) == "20000";
    assert NatToString(200001) == "20000" + "1";
    assert NatToString(200002) == "20000" + "2";
    assert NatToString(200003) == "20000" + "3";
  }

  /** A fresh store hands out 200001, 200002, 200003 for three Project
      allocations. */
  method ThreeProjectIds() returns (a: string, b: string, c: string)
    ensures a == "200001" && b == "200002" && c == "200003"
  {
    var store := new CounterStore();
    var r1 := store.NextId("Project", true);
    var r2 := store.NextId("Project", true);
    var r3 := store.NextId("Project", true);
    a, b, c := r1.value, r2.value, r3.value;
    FirstProjectIds();
  }

  /** A fresh store hands out "1" for a kind missing from the offset table. */
  method WidgetId() returns (a: string)
    ensures a == "1"
  {
    var store := new CounterStore();
    var r := store.NextId("Widget", true);
    a := r.value;
  }
}
