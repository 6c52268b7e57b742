/**
 * `ReportService`: the stock, borrow-history, currently-borrowed and issued-items
 * reports, computed from the item and loan repositories (here: sequences in
 * repository order).
 */
module Reports {
  import opened Common
  import opened Seqs
  import opened Inventory
  import Dashboard

  /** A `LocalDate` argument, possibly null; the reports never look at it. */
  datatype LocalDate = LocalDate(year: int, month: int, day: int)

  /** A row of the currently-borrowed report. */
  datatype BorrowedRow = BorrowedRow(
    loanId: int,
    itemName: string,
    borrowerName: string,
    borrowerEmail: string,
    issueDate: Option<string>,
    dueDate: string,
    fine: string)

  /** A row of the issued-items report. */
  datatype IssuedRow = IssuedRow(
    loanId: int,
    itemName: string,
    borrowerName: string,
    issueDate: Option<string>,
    returnDate: Option<string>,
    status: string,
    fine: string)

  const NoDueDate: string := "N/A"

  // ---------------------------------------------------------------------------
  // Stock report

  function GetItemStockReport(items: seq<Item>): seq<Item> {
    items
  }

  function GetTotalItemsCount(items: seq<Item>): nat {
    |items|
  }

  /** `getLowStockItemsCount`: the items below the low-stock level of 10. */
  function GetLowStockItemsCount(items: seq<Item>): (n: nat)
    ensures n == |Filter(IsLowStock, items)|
    ensures n <= GetTotalItemsCount(items)
    ensures n == 0 <==> forall item :: item in items ==> item.quantity >= LowStockLevel
  {
    CountIsFilterLength(IsLowStock, items);
    CountZeroIff(IsLowStock, items);
    Count(IsLowStock, items)
  }

  /** The stock report's low-stock figure is the dashboard's. */
  lemma LowStockAgreesWithDashboard(items: seq<Item>, loans: seq<Loan>)
    ensures GetLowStockItemsCount(items) == Dashboard.GetDashboardStats(items, loans).lowStockCount
  {
  }

  // ---------------------------------------------------------------------------
  // Borrow history

  predicate HasIssueDate(loan: Loan) {
    loan.issueDate.Some? && loan.issueDate.value != ""
  }

  /** `getBorrowHistoryReport`: the loans with an issue date, in order; the dates are ignored. */
  function GetBorrowHistoryReport(loans: seq<Loan>, startDate: Option<LocalDate>, endDate: Option<LocalDate>): (r: seq<Loan>)
    ensures |r| <= |loans|
    ensures forall loan :: loan in r <==> loan in loans && HasIssueDate(loan)
  {
    FilterMembersAll(HasIssueDate, loans);
    Filter(HasIssueDate, loans)
  }

  lemma FilterMembersAll(p: Loan -> bool, s: seq<Loan>)
    ensures forall x :: x in Filter(p, s) <==> x in s && p(x)
  {
    forall x
      ensures x in Filter(p, s) <==> x in s && p(x)
    {
      FilterMembers(p, s, x);
    }
  }

  /** The history of a concatenation is the concatenation of the histories: repository order is kept. */
  lemma BorrowHistoryKeepsOrder(a: seq<Loan>, b: seq<Loan>, startDate: Option<LocalDate>, endDate: Option<LocalDate>)
    ensures GetBorrowHistoryReport(a + b, startDate, endDate)
         == GetBorrowHistoryReport(a, startDate, endDate) + GetBorrowHistoryReport(b, startDate, endDate)
  {
    FilterConcat(HasIssueDate, a, b);
  }

  function GetTotalLoansCount(loans: seq<Loan>): nat {
    |loans|
  }

  // ---------------------------------------------------------------------------
  // Currently borrowed

  function BorrowerName(b: Borrower): string {
    b.firstName + " " + b.lastName
  }

  function BorrowedRowOf(loan: Loan): BorrowedRow {
    BorrowedRow(loan.id, loan.item.name, BorrowerName(loan.borrower), loan.borrower.email,
                loan.issueDate, NoDueDate, loan.totalFine)
  }

  /** `getCurrentlyBorrowedCount`: the loans with a null or empty return date. */
  function GetCurrentlyBorrowedCount(loans: seq<Loan>): (n: nat)
    ensures n == |Filter(IsOutstanding, loans)|
    ensures n <= GetTotalLoansCount(loans)
  {
    CountIsFilterLength(IsOutstanding, loans);
    Count(IsOutstanding, loans)
  }

  /**
   * `getCurrentlyBorrowedItems`: one row per outstanding loan, in repository order, as
   * many rows as the borrowed count; each names the borrower in full and has no due date.
   */
  method GetCurrentlyBorrowedItems(loans: seq<Loan>) returns (rows: seq<BorrowedRow>)
    ensures rows == Map(BorrowedRowOf, Filter(IsOutstanding, loans))
    ensures |rows| == GetCurrentlyBorrowedCount(loans)
    ensures forall i :: 0 <= i < |rows| ==> rows[i].dueDate == NoDueDate
  {
    var activeLoans := Filter(IsOutstanding, loans);
    rows := [];
    for i := 0 to |activeLoans|
      invariant rows == Map(BorrowedRowOf, activeLoans[..i])
    {
      assert activeLoans[..i + 1][..i] == activeLoans[..i];
      rows := rows + [BorrowedRowOf(activeLoans[i])];
    }
    assert activeLoans[..|activeLoans|] == activeLoans;
  }

  // ---------------------------------------------------------------------------
  // Issued items

  /**
   * An issued-items row: "Borrowed" with no return date exactly when the loan is
   * outstanding, otherwise "Returned" with the loan's return date.
   */
  function IssuedRowOf(loan: Loan): (row: IssuedRow)
    ensures row.status == "Borrowed" <==> IsOutstanding(loan)
    ensures row.status == "Returned" <==> IsReturned(loan)
    ensures row.status == "Borrowed" ==> row.returnDate.None?
    ensures row.status == "Returned" ==> row.returnDate == loan.returnDate
    ensures row.loanId == loan.id && row.borrowerName == BorrowerName(loan.borrower)
  {
    IssuedRow(loan.id, loan.item.name, BorrowerName(loan.borrower), loan.issueDate,
              if loan.returnDate.Some? && loan.returnDate.value != "" then loan.returnDate else None,
              if loan.returnDate.None? || loan.returnDate.value == "" then "Borrowed" else "Returned",
              loan.totalFine)
  }

  /** `getIssuedItemsReport`: one row per loan, in repository order; the dates are ignored. */
  method GetIssuedItemsReport(loans: seq<Loan>, startDate: Option<LocalDate>, endDate: Option<LocalDate>)
      returns (rows: seq<IssuedRow>)
    ensures rows == Map(IssuedRowOf, loans)
  {
    rows := [];
    for i := 0 to |loans|
      invariant rows == Map(IssuedRowOf, loans[..i])
    {
      assert loans[..i + 1][..i] == loans[..i];
      rows := rows + [IssuedRowOf(loans[i])];
    }
    assert loans[..|loans|] == loans;
  }

  /** `getTotalIssuedCount`: every loan, whatever the dates. */
  function GetTotalIssuedCount(loans: seq<Loan>, startDate: Option<LocalDate>, endDate: Option<LocalDate>): (n: nat)
    ensures n == GetTotalLoansCount(loans)
    ensures n == |Map(IssuedRowOf, loans)|
  {
    |loans|
  }

  predicate IsBorrowedRow(row: IssuedRow) {
    row.status == "Borrowed"
  }

  /** The issued-items report marks exactly as many rows "Borrowed" as the borrowed count. */
  lemma {:induction false} BorrowedRowsMatchBorrowedCount(loans: seq<Loan>)
    ensures Count(IsBorrowedRow, Map(IssuedRowOf, loans)) == GetCurrentlyBorrowedCount(loans)
    decreases |loans|
  {
    if loans != [] {
      var init := loans[..|loans| - 1];
      BorrowedRowsMatchBorrowedCount(init);
      assert Map(IssuedRowOf, loans)[..|loans| - 1] == Map(IssuedRowOf, init);
    }
  }
}
