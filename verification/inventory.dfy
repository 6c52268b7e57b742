/**
 * The JPA entities the core reads (Item, ItemType, Vendor, Borrower, Loan), reduced to
 * the fields the core uses, and the loan and stock classifications shared by the
 * dashboard, the snapshot service and the reports.
 */
module Inventory {
  import opened Common
  import opened Seqs

  datatype ItemType = ItemType(typeName: string)

  datatype Vendor = Vendor(id: int, name: string)

  /** `price` is the Java rendering of the item's double price; it is only ever printed. */
  datatype Item = Item(
    id: int,
    name: string,
    quantity: int,
    price: string,
    itemType: Option<ItemType>,
    vendor: Option<Vendor>)

  datatype Borrower = Borrower(id: int, firstName: string, lastName: string, email: string)

  /**
   * Dates are stored as strings; a missing date is null. `totalFine` is the Java
   * rendering of the loan's double fine; it is only ever copied into reports.
   */
  datatype Loan = Loan(
    id: int,
    item: Item,
    borrower: Borrower,
    issueDate: Option<string>,
    returnDate: Option<string>,
    totalFine: string)

  /** The fixed low-stock level used by the dashboard and the reports. */
  const LowStockLevel: int := 10

  /** A loan is still out when its return date is null or empty. */
  predicate IsOutstanding(loan: Loan) {
    loan.returnDate.None? || loan.returnDate.value == ""
  }

  /** A loan counts as returned when its return date is non-null and non-empty. */
  predicate IsReturned(loan: Loan) {
    loan.returnDate.Some? && loan.returnDate.value != ""
  }

  predicate IsLowStock(item: Item) {
    item.quantity < LowStockLevel
  }

  function QuantityOf(item: Item): int {
    item.quantity
  }

  /** Java `int` arithmetic: the two's-complement 32-bit value of `x`. */
  function Int32(x: int): (r: int)
    ensures -0x8000_0000 <= r < 0x8000_0000
    ensures (r - x) % 0x1_0000_0000 == 0
    ensures -0x8000_0000 <= x < 0x8000_0000 ==> r == x
  {
    (x + 0x8000_0000) % 0x1_0000_0000 - 0x8000_0000
  }

  function OutstandingCount(loans: seq<Loan>): nat {
    Count(IsOutstanding, loans)
  }

  function ReturnedCount(loans: seq<Loan>): nat {
    Count(IsReturned, loans)
  }

  /** Every loan is either outstanding or returned, never both. */
  lemma OutstandingReturnedPartition(loans: seq<Loan>)
    ensures OutstandingCount(loans) + ReturnedCount(loans) == |loans|
  {
    CountComplement(IsOutstanding, IsReturned, loans);
  }

  /** `mapToInt(Item::getQuantity).sum()` evaluated in 32-bit `int` arithmetic. */
  function InventoryRemaining(items: seq<Item>): (r: int)
    ensures -0x8000_0000 <= Sum(QuantityOf, items) < 0x8000_0000 ==> r == Sum(QuantityOf, items)
  {
    Int32(Sum(QuantityOf, items))
  }

  function LowStockCount(items: seq<Item>): nat {
    Count(IsLowStock, items)
  }
}
