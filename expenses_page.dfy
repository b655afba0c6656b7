/** The expense list page: the three filter criteria, the filtered list and
    the allocation label of each row. */
module ExpensesPage {
  import opened Common
  import opened SharedTypes

  /** The search text and the two selects; "" selects everything. */
  datatype Criteria = Criteria(search: string, category: string, allocationType: string)

  /** The search text as it is compared: trimmed and lower-cased. */
  function SearchKey(search: string): (s: string)
    ensures s == "" <==> IsBlank(search)
  {
    ToLower(Trim(search))
  }

  /** Whether an expense passes every active criterion: its description
      (a missing one read as "") contains the search key ignoring case, and
      its category and allocation type equal the selected ones. */
  predicate Matches(e: ExpenseView, c: Criteria)
  {
    var s := SearchKey(c.search);
    && (s == "" || Contains(ToLower(e.description.GetOr("")), s))
    && (c.category == "" || e.category == Some(c.category))
    && (c.allocationType == "" || e.allocationType == Some(c.allocationType))
  }

  /** `filteredExpenses`: the expenses that match, in list order. */
  function FilterExpenses(xs: seq<ExpenseView>, c: Criteria): (r: seq<ExpenseView>)
    ensures |r| <= |xs|
    ensures forall e :: e in r <==> e in xs && Matches(e, c)
  {
    if xs == [] then []
    else (if Matches(xs[0], c) then [xs[0]] else []) + FilterExpenses(xs[1..], c)
  }

  /** `r` is `xs` with some elements left out, the rest in their order. */
  predicate Subsequence(r: seq<ExpenseView>, xs: seq<ExpenseView>)
    decreases |xs|
  {
    if r == [] then true
    else if xs == [] then false
    else (r[0] == xs[0] && Subsequence(r[1..], xs[1..])) || Subsequence(r, xs[1..])
  }

  /** The filtered list keeps the input's order. */
  lemma {:induction false} FilterIsSubsequence(xs: seq<ExpenseView>, c: Criteria)
    ensures Subsequence(FilterExpenses(xs, c), xs)
  {
    if xs != [] {
      FilterIsSubsequence(xs[1..], c);
      var r := FilterExpenses(xs, c);
      if Matches(xs[0], c) {
        assert r[1..] == FilterExpenses(xs[1..], c);
      } else {
        assert r == FilterExpenses(xs[1..], c);
      }
    }
  }

  /** Filtering a concatenation filters each part. */
  lemma {:induction false} FilterAppend(a: seq<ExpenseView>, b: seq<ExpenseView>, c: Criteria)
    ensures FilterExpenses(a + b, c) == FilterExpenses(a, c) + FilterExpenses(b, c)
  {
    if a == [] {
      assert a + b == b;
    } else {
      assert (a + b)[0] == a[0];
      assert (a + b)[1..] == a[1..] + b;
      FilterAppend(a[1..], b, c);
    }
  }

  /** Filtering the filtered list changes nothing. */
  lemma {:induction false} FilterIdempotent(xs: seq<ExpenseView>, c: Criteria)
    ensures FilterExpenses(FilterExpenses(xs, c), c) == FilterExpenses(xs, c)
  {
    if xs != [] {
      var rest := FilterExpenses(xs[1..], c);
      FilterIdempotent(xs[1..], c);
      if Matches(xs[0], c) {
        var r := [xs[0]] + rest;
        assert FilterExpenses(xs, c) == r;
        assert r[0] == xs[0] && r[1..] == rest;
      } else {
        assert FilterExpenses(xs, c) == rest;
      }
    }
  }

  /** With a blank search and both selects empty, every expense is shown. */
  lemma {:induction false} NoCriteriaShowsAll(xs: seq<ExpenseView>, search: string)
    requires IsBlank(search)
    ensures FilterExpenses(xs, Criteria(search, "", "")) == xs
  {
    if xs != [] {
      NoCriteriaShowsAll(xs[1..], search);
    }
  }

  /** `allocationLabel`: the general label without allocations, the project
      ID for one, and "<multiple> (n)" for n of them. */
  function AllocationLabel(generalLabel: string, multipleLabel: string, e: ExpenseView): (r: string)
    ensures var n := |e.projectAllocations.GetOr([])|;
      && (n == 0 ==> r == generalLabel)
      && (n == 1 ==> r == e.projectAllocations.value[0].projectId)
      && (n >= 2 ==> r == multipleLabel + " (" + NatToString(n) + ")")
  {
    var alloc := e.projectAllocations.GetOr([]);
    if |alloc| == 0 then generalLabel
    else if |alloc| == 1 then alloc[0].projectId
    else multipleLabel + " (" + NatToString(|alloc|) + ")"
  }

  /** Two rows with different numbers (at least two) of allocations get
      different labels. */
  lemma MultipleLabelsShowTheCount(generalLabel: string, multipleLabel: string, e1: ExpenseView, e2: ExpenseView)
    requires |e1.projectAllocations.GetOr([])| >= 2 && |e2.projectAllocations.GetOr([])| >= 2
    requires |e1.projectAllocations.GetOr([])| != |e2.projectAllocations.GetOr([])|
    ensures AllocationLabel(generalLabel, multipleLabel, e1) != AllocationLabel(generalLabel, multipleLabel, e2)
  {
    var n1, n2 := |e1.projectAllocations.GetOr([])|, |e2.projectAllocations.GetOr([])|;
    var p := multipleLabel + " (";
    var l1, l2 := AllocationLabel(generalLabel, multipleLabel, e1), AllocationLabel(generalLabel, multipleLabel, e2);
    if l1 == l2 {
      var s1, s2 := NatToString(n1), NatToString(n2);
      assert l1 == p + (s1 + ")") && l2 == p + (s2 + ")");
      assert l1[|p|..] == s1 + ")" && l2[|p|..] == s2 + ")";
      assert s1 == (s1 + ")")[..|s1|];
      assert s2 == (s2 + ")")[..|s2|];
      NatToStringInjective(n1, n2);
    }
  }

  /** The filter state of the page. */
  class ExpensesPage {
    var search: string
    var category: string
    var allocationType: string

    constructor ()
      ensures search == "" && category == "" && allocationType == ""
    {
      search, category, allocationType := "", "", "";
    }

    function Current(): Criteria
      reads this
    {
      Criteria(search, category, allocationType)
    }

    /** The rows the page shows for the fetched expenses. */
    function Visible(expenses: seq<ExpenseView>): (r: seq<ExpenseView>)
      reads this
      ensures forall e :: e in r <==> e in expenses && Matches(e, Current())
    {
      FilterExpenses(expenses, Current())
    }

    /** The clear button: reset all three criteria, so every fetched expense
        is shown again. */
    method Clear()
      modifies this
      ensures search == "" && category == "" && allocationType == ""
      ensures forall xs :: Visible(xs) == xs
    {
      search := "";
      category := "";
      allocationType := "";
      forall xs: seq<ExpenseView>
        ensures Visible(xs) == xs
      {
        NoCriteriaShowsAll(xs, "");
      }
    }
  }
}
