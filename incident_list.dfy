/**
 * The incident list of the portal's home page: the four conjunctive
 * multiselect filters, the ten-rows-per-page pagination, the caption range
 * and the escalation flag shown beside each row.
 *
 * Rows are records of strings; the table library's frame is a sequence of
 * them, and "keep the rows whose field is one of the chosen values" is a
 * recursive selection that keeps the original order.
 */
module IncidentList {

  /** One incident row, with the columns the page reads. */
  datatype Incident = Incident(
    kind: string,            // "External" or "Internal"
    id: string,
    severity: string,
    state: string,
    title: string,
    createTime: string,
    owningService: string,
    owner: string
  )

  /** The column a multiselect filter looks at. */
  datatype Column = Severity | State | OwningService | Kind

  function ColumnOf(r: Incident, c: Column): string
  {
    match c
    case Severity => r.severity
    case State => r.state
    case OwningService => r.owningService
    case Kind => r.kind
  }

  /** A row passes one filter when nothing is chosen or its column value is chosen. */
  predicate Passes(r: Incident, c: Column, chosen: seq<string>)
  {
    chosen == [] || ColumnOf(r, c) in chosen
  }

  /**
   * One filter step: an empty choice leaves the frame as it is, otherwise
   * the rows whose column value is among the chosen ones are kept in order.
   */
  function ApplyFilter(rows: seq<Incident>, c: Column, chosen: seq<string>): (r: seq<Incident>)
    ensures |r| <= |rows|
    ensures chosen == [] ==> r == rows
  {
    if chosen == [] then rows else Select(rows, c, chosen)
  }

  function Select(rows: seq<Incident>, c: Column, chosen: seq<string>): (r: seq<Incident>)
    ensures |r| <= |rows|
  {
    if rows == [] then []
    else if ColumnOf(rows[0], c) in chosen then [rows[0]] + Select(rows[1..], c, chosen)
    else Select(rows[1..], c, chosen)
  }

  /** The four filters of the home page, applied one after the other. */
  function ApplyFilters(rows: seq<Incident>, severities: seq<string>, states: seq<string>,
                        services: seq<string>, kinds: seq<string>): seq<Incident>
  {
    var bySeverity := ApplyFilter(rows, Severity, severities);
    var byState := ApplyFilter(bySeverity, State, states);
    var byService := ApplyFilter(byState, OwningService, services);
    ApplyFilter(byService, Kind, kinds)
  }

  predicate PassesAll(r: Incident, severities: seq<string>, states: seq<string>,
                      services: seq<string>, kinds: seq<string>)
  {
    Passes(r, Severity, severities) && Passes(r, State, states) &&
    Passes(r, OwningService, services) && Passes(r, Kind, kinds)
  }

  /** `a` is `b` with some elements left out and the rest in their original order. */
  predicate IsSubsequence<T(==)>(a: seq<T>, b: seq<T>)
    decreases |b|
  {
    if a == [] then true
    else if b == [] then false
    else (a[0] == b[0] && IsSubsequence(a[1..], b[1..])) || IsSubsequence(a, b[1..])
  }

  // ---------------------------------------------------------------- filters

  /** A row is kept by one filter exactly when it was there and passes it. */
  lemma {:induction false} SelectMembership(rows: seq<Incident>, c: Column, chosen: seq<string>, x: Incident)
    ensures x in Select(rows, c, chosen) <==> x in rows && ColumnOf(x, c) in chosen
  {
    if rows != [] {
      SelectMembership(rows[1..], c, chosen, x);
      assert rows == [rows[0]] + rows[1..];
    }
  }

  lemma FilterMembership(rows: seq<Incident>, c: Column, chosen: seq<string>, x: Incident)
    ensures x in ApplyFilter(rows, c, chosen) <==> x in rows && Passes(x, c, chosen)
  {
    if chosen != [] {
      SelectMembership(rows, c, chosen, x);
    }
  }

  /** A filter keeps every copy of a passing row and no copy of any other. */
  lemma {:induction false} SelectCount(rows: seq<Incident>, c: Column, chosen: seq<string>, x: Incident)
    ensures multiset(Select(rows, c, chosen))[x] == if ColumnOf(x, c) in chosen then multiset(rows)[x] else 0
  {
    if rows != [] {
      SelectCount(rows[1..], c, chosen, x);
      assert rows == [rows[0]] + rows[1..];
    }
  }

  lemma FilterCount(rows: seq<Incident>, c: Column, chosen: seq<string>, x: Incident)
    ensures multiset(ApplyFilter(rows, c, chosen))[x] == if Passes(x, c, chosen) then multiset(rows)[x] else 0
  {
    if chosen != [] {
      SelectCount(rows, c, chosen, x);
    }
  }

  /** Every row that a filter keeps passes it: the result holds nothing else. */
  lemma {:induction false} SelectAllPass(rows: seq<Incident>, c: Column, chosen: seq<string>)
    ensures forall i :: 0 <= i < |Select(rows, c, chosen)| ==> ColumnOf(Select(rows, c, chosen)[i], c) in chosen
  {
    if rows != [] {
      SelectAllPass(rows[1..], c, chosen);
    }
  }

  /** Selecting from rows that all pass keeps all of them. */
  lemma {:induction false} SelectKeepsPassing(rows: seq<Incident>, c: Column, chosen: seq<string>)
    requires forall i :: 0 <= i < |rows| ==> ColumnOf(rows[i], c) in chosen
    ensures Select(rows, c, chosen) == rows
  {
    if rows != [] {
      SelectKeepsPassing(rows[1..], c, chosen);
    }
  }

  /** Applying the same filter a second time changes nothing. */
  lemma FilterIdempotent(rows: seq<Incident>, c: Column, chosen: seq<string>)
    ensures ApplyFilter(ApplyFilter(rows, c, chosen), c, chosen) == ApplyFilter(rows, c, chosen)
  {
    if chosen != [] {
      SelectAllPass(rows, c, chosen);
      SelectKeepsPassing(Select(rows, c, chosen), c, chosen);
    }
  }

  /** The order in which two filters are applied does not matter. */
  lemma {:induction false} SelectCommute(rows: seq<Incident>, c: Column, a: seq<string>, d: Column, b: seq<string>)
    ensures Select(Select(rows, c, a), d, b) == Select(Select(rows, d, b), c, a)
  {
    if rows != [] {
      SelectCommute(rows[1..], c, a, d, b);
    }
  }

  lemma FilterCommute(rows: seq<Incident>, c: Column, a: seq<string>, d: Column, b: seq<string>)
    ensures ApplyFilter(ApplyFilter(rows, c, a), d, b) == ApplyFilter(ApplyFilter(rows, d, b), c, a)
  {
    if a != [] && b != [] {
      SelectCommute(rows, c, a, d, b);
    }
  }

  /** Each filter keeps an order-preserving part of its input. */
  lemma {:induction false} SelectIsSubsequence(rows: seq<Incident>, c: Column, chosen: seq<string>)
    ensures IsSubsequence(Select(rows, c, chosen), rows)
  {
    if rows != [] {
      SelectIsSubsequence(rows[1..], c, chosen);
      var rest := Select(rows[1..], c, chosen);
      if ColumnOf(rows[0], c) in chosen {
        assert Select(rows, c, chosen) == [rows[0]] + rest;
        assert ([rows[0]] + rest)[1..] == rest;
      } else {
        if rest != [] {
          assert IsSubsequence(rest, rows[1..]);
        }
      }
    }
  }

  lemma {:induction false} SubsequenceReflexive<T>(a: seq<T>)
    ensures IsSubsequence(a, a)
  {
    if a != [] {
      SubsequenceReflexive(a[1..]);
    }
  }

  lemma {:induction false} SubsequenceTransitive<T>(a: seq<T>, b: seq<T>, c: seq<T>)
    requires IsSubsequence(a, b) && IsSubsequence(b, c)
    ensures IsSubsequence(a, c)
    decreases |c|
  {
    if a != [] {
      assert b != [] && c != [];
      if b[0] == c[0] && IsSubsequence(b[1..], c[1..]) {
        if a[0] == b[0] && IsSubsequence(a[1..], b[1..]) {
          SubsequenceTransitive(a[1..], b[1..], c[1..]);
        } else {
          SubsequenceTransitive(a, b[1..], c[1..]);
        }
      } else {
        SubsequenceTransitive(a, b, c[1..]);
      }
    }
  }

  lemma FilterIsSubsequence(rows: seq<Incident>, c: Column, chosen: seq<string>)
    ensures IsSubsequence(ApplyFilter(rows, c, chosen), rows)
  {
    if chosen == [] {
      SubsequenceReflexive(rows);
    } else {
      SelectIsSubsequence(rows, c, chosen);
    }
  }

  /**
   * The four filters together keep exactly the rows that pass every one of
   * them, every copy of such a row and none of any other, and the result is
   * an order-preserving subsequence of the input.
   */
  lemma FiltersConjunctive(rows: seq<Incident>, severities: seq<string>, states: seq<string>,
                           services: seq<string>, kinds: seq<string>)
    ensures forall x :: x in ApplyFilters(rows, severities, states, services, kinds) <==>
                        x in rows && PassesAll(x, severities, states, services, kinds)
    ensures forall x :: multiset(ApplyFilters(rows, severities, states, services, kinds))[x] ==
                        if PassesAll(x, severities, states, services, kinds) then multiset(rows)[x] else 0
    ensures IsSubsequence(ApplyFilters(rows, severities, states, services, kinds), rows)
  {
    var s1 := ApplyFilter(rows, Severity, severities);
    var s2 := ApplyFilter(s1, State, states);
    var s3 := ApplyFilter(s2, OwningService, services);
    var s4 := ApplyFilter(s3, Kind, kinds);
    forall x
      ensures x in s4 <==> x in rows && PassesAll(x, severities, states, services, kinds)
      ensures multiset(s4)[x] == if PassesAll(x, severities, states, services, kinds) then multiset(rows)[x] else 0
    {
      FilterMembership(rows, Severity, severities, x);
      FilterMembership(s1, State, states, x);
      FilterMembership(s2, OwningService, services, x);
      FilterMembership(s3, Kind, kinds, x);
      FilterCount(rows, Severity, severities, x);
      FilterCount(s1, State, states, x);
      FilterCount(s2, OwningService, services, x);
      FilterCount(s3, Kind, kinds, x);
    }
    FilterIsSubsequence(rows, Severity, severities);
    FilterIsSubsequence(s1, State, states);
    FilterIsSubsequence(s2, OwningService, services);
    FilterIsSubsequence(s3, Kind, kinds);
    SubsequenceTransitive(s2, s1, rows);
    SubsequenceTransitive(s3, s2, rows);
    SubsequenceTransitive(s4, s3, rows);
  }

  /** With no filter chosen the whole frame is shown. */
  lemma NoFiltersKeepEverything(rows: seq<Incident>)
    ensures ApplyFilters(rows, [], [], [], []) == rows
  {
  }

  // ------------------------------------------------------------- pagination

  const ItemsPerPage: nat := 10

  /** Whole pages plus one more for a partial last page. */
  function TotalPages(n: nat): nat
  {
    n / ItemsPerPage + (if n % ItemsPerPage > 0 then 1 else 0)
  }

  /** TotalPages is the ceiling of n / 10. */
  lemma TotalPagesIsCeiling(n: nat)
    ensures n == 0 ==> TotalPages(n) == 0
    ensures n > 0 ==> (TotalPages(n) - 1) * ItemsPerPage < n <= TotalPages(n) * ItemsPerPage
  {
  }

  function PageStart(page: nat): nat
    requires page >= 1
  {
    (page - 1) * ItemsPerPage
  }

  function PageEnd(page: nat, n: nat): nat
    requires page >= 1
  {
    if PageStart(page) + ItemsPerPage < n then PageStart(page) + ItemsPerPage else n
  }

  /** Each selectable page is a non-empty window of at most ten rows inside the frame. */
  lemma PageWindowBounds(page: nat, n: nat)
    requires n > 0 && 1 <= page <= TotalPages(n)
    ensures 0 <= PageStart(page) < PageEnd(page, n) <= n
    ensures PageEnd(page, n) - PageStart(page) <= ItemsPerPage
  {
    TotalPagesIsCeiling(n);
  }

  /** The caption "Showing a-b of n incidents" names a range inside 1..n. */
  function Caption(page: nat, n: nat): (range: (nat, nat))
    requires n > 0 && 1 <= page <= TotalPages(n)
    ensures 1 <= range.0 <= range.1 <= n
    ensures range.1 - range.0 < ItemsPerPage
    ensures range.0 == (page - 1) * ItemsPerPage + 1
    ensures range.1 == if page * ItemsPerPage < n then page * ItemsPerPage else n
  {
    PageWindowBounds(page, n);
    (PageStart(page) + 1, PageEnd(page, n))
  }

  /** The rows displayed on one page. */
  function PageRows(rows: seq<Incident>, page: nat): (shown: seq<Incident>)
    requires |rows| > 0 && 1 <= page <= TotalPages(|rows|)
    ensures 0 < |shown| <= ItemsPerPage && PageStart(page) + |shown| <= |rows|
    ensures |shown| == if page * ItemsPerPage < |rows| then ItemsPerPage else |rows| - PageStart(page)
    ensures forall i :: 0 <= i < |shown| ==> shown[i] == rows[PageStart(page) + i]
  {
    PageWindowBounds(page, |rows|);
    rows[PageStart(page)..PageEnd(page, |rows|)]
  }

  /** Consecutive pages meet: each page starts where the previous one ended. */
  lemma PagesContiguous(page: nat, n: nat)
    requires n > 0 && 1 <= page < TotalPages(n)
    ensures PageEnd(page, n) == PageStart(page + 1)
  {
    TotalPagesIsCeiling(n);
  }

  /** The first page starts at row 0 and the last one ends at the last row. */
  lemma PagesCoverEnds(n: nat)
    requires n > 0
    ensures PageStart(1) == 0
    ensures PageEnd(TotalPages(n), n) == n
  {
    TotalPagesIsCeiling(n);
  }

  /** Every row index lies on exactly one page, the page i / 10 + 1. */
  lemma PageOfIndex(i: nat, n: nat)
    requires i < n
    ensures 1 <= i / ItemsPerPage + 1 <= TotalPages(n)
    ensures forall p :: 1 <= p <= TotalPages(n) ==>
              (PageStart(p) <= i < PageEnd(p, n) <==> p == i / ItemsPerPage + 1)
  {
    TotalPagesIsCeiling(n);
  }

  /** The rows of pages first..last, in page order. */
  function PagesFrom(rows: seq<Incident>, first: nat, last: nat): seq<Incident>
    requires |rows| > 0 && 1 <= first && last <= TotalPages(|rows|)
    decreases last - first + 1
  {
    if first > last then [] else PageRows(rows, first) + PagesFrom(rows, first + 1, last)
  }

  /** Reading the pages one after another from page 1 gives back the whole frame. */
  lemma PagesPartitionRows(rows: seq<Incident>)
    requires |rows| > 0
    ensures PagesFrom(rows, 1, TotalPages(|rows|)) == rows
  {
    PagesCoverEnds(|rows|);
    PagesSuffix(rows, 1);
    assert rows[0..] == rows;
  }

  lemma {:induction false} PagesSuffix(rows: seq<Incident>, first: nat)
    requires |rows| > 0 && 1 <= first <= TotalPages(|rows|)
    ensures PagesFrom(rows, first, TotalPages(|rows|)) == rows[PageStart(first)..]
    decreases TotalPages(|rows|) - first
  {
    var n := |rows|;
    PageWindowBounds(first, n);
    if first == TotalPages(n) {
      PagesCoverEnds(n);
      assert PagesFrom(rows, first + 1, TotalPages(n)) == [];
      assert rows[PageStart(first)..] == rows[PageStart(first)..PageEnd(first, n)];
    } else {
      PagesContiguous(first, n);
      PagesSuffix(rows, first + 1);
      assert rows[PageStart(first)..] == rows[PageStart(first)..PageEnd(first, n)] + rows[PageStart(first + 1)..];
    }
  }

  // ------------------------------------------------------------- escalation

  /** A row gets the escalation flag when it is severe and still being worked on. */
  predicate EscalationProne(r: Incident)
  {
    r.severity in ["Critical", "High"] && r.state in ["Open", "In Progress"]
  }

  /**
   * The flag agrees with the page's own filters: a row is flagged exactly
   * when it survives the severity filter {Critical, High} together with the
   * state filter {Open, In Progress}.
   */
  lemma EscalationMatchesFilters(rows: seq<Incident>, x: Incident)
    requires x in rows
    ensures EscalationProne(x) <==>
            x in ApplyFilters(rows, ["Critical", "High"], ["Open", "In Progress"], [], [])
  {
    FiltersConjunctive(rows, ["Critical", "High"], ["Open", "In Progress"], [], []);
  }
}
