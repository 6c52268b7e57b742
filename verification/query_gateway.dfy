/**
 * The chatbot's query gateway (`ChatbotDatabaseService`): a string-keyed dispatch over
 * six read-only handlers, with per-handler argument checks and a catch-all that turns
 * a handler's exception into an `{"error": message}` reply.
 *
 * The repositories are a `Store` value handed to every call; nothing here can return a
 * changed store, so every handler only reads.
 */
module QueryGateway {
  import opened Common
  import opened Text
  import opened Seqs
  import opened Inventory
  import opened JsonValues

  /** A Java exception, reduced to its (possibly null) message. */
  datatype Exception = Exception(message: Option<string>)

  /**
   * The four repositories as `findAll` sees them. `failure`, when present, is the
   * exception every repository read raises (a data-access failure).
   */
  datatype Store = Store(
    items: seq<Item>,
    vendors: seq<Vendor>,
    borrowers: seq<Borrower>,
    loans: seq<Loan>,
    failure: Option<Exception>)

  /**
   * What `executeFunction` returns. The JSON documents are kept as values: `ErrorJson(e)`
   * stands for the Gson text of `{"error": e}` (a `None` message is JSON `null`),
   * `ItemJson(i)` for `{"item": i}`, and the listings for `{"vendors": .., "count": ..}`
   * and the like. `Text` is a handler's plain-text answer.
   */
  datatype Reply =
    | ErrorJson(error: Option<string>)
    | ItemJson(item: Item)
    | VendorsJson(vendors: seq<Vendor>, count: nat)
    | BorrowersJson(borrowers: seq<Borrower>, count: nat)
    | LoansJson(loans: seq<Loan>, count: nat)
    | Text(text: string)

  /** A handler either answers or raises an exception. */
  datatype HandlerResult = Done(reply: Reply) | Raised(exception: Exception)

  /** The dispatch table's entries, one per `case` label. */
  datatype Tool =
    | GetAllInventoryItems
    | GetAllVendors
    | GetAllBorrowers
    | GetAllLoans
    | GetItemById
    | GetLowStockItems

  function ToolName(t: Tool): string {
    match t
    case GetAllInventoryItems => "getAllInventoryItems"
    case GetAllVendors => "getAllVendors"
    case GetAllBorrowers => "getAllBorrowers"
    case GetAllLoans => "getAllLoans"
    case GetItemById => "getItemById"
    case GetLowStockItems => "getLowStockItems"
  }

  /** The `switch (functionName)`: the tool whose label is `name`, if any. */
  function Dispatch(name: string): (r: Option<Tool>)
    ensures r.Some? ==> ToolName(r.value) == name
  {
    if name == "getAllInventoryItems" then Some(GetAllInventoryItems)
    else if name == "getAllVendors" then Some(GetAllVendors)
    else if name == "getAllBorrowers" then Some(GetAllBorrowers)
    else if name == "getAllLoans" then Some(GetAllLoans)
    else if name == "getItemById" then Some(GetItemById)
    else if name == "getLowStockItems" then Some(GetLowStockItems)
    else None
  }

  /** The non-default `case` labels. */
  const DispatchLabels: set<string> :=
    {"getAllInventoryItems", "getAllVendors", "getAllBorrowers", "getAllLoans", "getItemById", "getLowStockItems"}

  /** Every tool is reached through its own label, and only the labels reach a tool. */
  lemma DispatchTable(name: string, t: Tool)
    ensures Dispatch(ToolName(t)) == Some(t)
    ensures Dispatch(name).Some? <==> name in DispatchLabels
  {
  }

  /** The default low-stock threshold when the caller gives none. */
  const DefaultThreshold: int := 10

  /**
   * `((Number) value).longValue()` / `.intValue()`: a number is read as is, JSON `null`
   * raises a NullPointerException (without a message on JVMs before helpful
   * NullPointerException messages), anything else a ClassCastException, whose message
   * is the first clause of the Java 11 text (the module and loader clause after it
   * depends on the class loader).
   */
  function ReadNumber(v: Json): (r: HandlerResultOrNumber)
    ensures r.Number? <==> v.JNum?
    ensures r.Number? ==> r.value == v.n
  {
    match v
    case JNum(n) => Number(n)
    case JNull => Failure(Exception(None))
    case _ => Failure(Exception(Some("class " + JavaClassName(v) + " cannot be cast to class java.lang.Number")))
  }

  datatype HandlerResultOrNumber = Number(value: int) | Failure(exception: Exception)

  /** `findById`: the item carrying `id`, if the repository holds one. */
  function FindById(items: seq<Item>, id: int): (r: Option<Item>)
    ensures r.Some? ==> r.value in items && r.value.id == id
    ensures r.None? <==> forall i :: 0 <= i < |items| ==> items[i].id != id
    decreases |items|
  {
    if items == [] then None
    else if items[0].id == id then Some(items[0])
    else FindById(items[1..], id)
  }

  /** The pieces of one line of a plain-text item listing, before its newline. */
  function BulletPieces(item: Item): seq<string> {
    ["• ", item.name, " (ID: ", IntToString(item.id), ", Quantity: ", IntToString(item.quantity),
     ", Price: $", item.price, ")"]
  }

  /** One line of a plain-text item listing. */
  function Bullet(item: Item): string {
    Concat(BulletPieces(item)) + "\n"
  }

  /** The bullets of a listing, one per item, in order. */
  function Bullets(items: seq<Item>): string {
    Concat(seq(|items|, i requires 0 <= i < |items| => Bullet(items[i])))
  }

  function InventoryHeader(n: int): string {
    "Found " + IntToString(n) + " inventory items:\n\n"
  }

  function LowStockHeader(n: int, threshold: int): string {
    "Found " + IntToString(n) + " items with stock below " + IntToString(threshold) + ":\n\n"
  }

  const NoLowStock: string := "No items are currently low in stock."

  /** The items whose quantity is strictly below `threshold`, in repository order. */
  function LowStockItems(items: seq<Item>, threshold: int): seq<Item> {
    Filter((item: Item) => item.quantity < threshold, items)
  }

  /** The text `getLowStockItems` builds for a threshold. */
  function LowStockText(items: seq<Item>, threshold: int): string {
    var low := LowStockItems(items, threshold);
    LowStockHeader(|low|, threshold) + (if low == [] then NoLowStock else Bullets(low))
  }

  /** The six handlers. Each reads the store only after its own argument checks. */
  function Handle(tool: Tool, args: map<string, Json>, store: Store): HandlerResult {
    match tool
    case GetAllInventoryItems =>
      if store.failure.Some? then Raised(store.failure.value)
      else Done(Text(InventoryHeader(|store.items|) + Bullets(store.items)))
    case GetAllVendors =>
      if store.failure.Some? then Raised(store.failure.value)
      else Done(VendorsJson(store.vendors, |store.vendors|))
    case GetAllBorrowers =>
      if store.failure.Some? then Raised(store.failure.value)
      else Done(BorrowersJson(store.borrowers, |store.borrowers|))
    case GetAllLoans =>
      if store.failure.Some? then Raised(store.failure.value)
      else Done(LoansJson(store.loans, |store.loans|))
    case GetItemById =>
      if "itemId" !in args then Done(ErrorJson(Some("itemId parameter is required")))
      else
        match ReadNumber(args["itemId"]) {
          case Failure(e) => Raised(e)
          case Number(id) =>
            if store.failure.Some? then Raised(store.failure.value)
            else
              match FindById(store.items, id) {
                case Some(item) => Done(ItemJson(item))
                case None => Done(ErrorJson(Some("Item not found with id: " + IntToString(id))))
              }
        }
    case GetLowStockItems =>
      var threshold := if "threshold" in args then ReadNumber(args["threshold"]) else Number(DefaultThreshold);
      match threshold
      case Failure(e) => Raised(e)
      case Number(t) =>
        if store.failure.Some? then Raised(store.failure.value)
        else Done(Text(LowStockText(store.items, t)))
  }

  /** The outcome of `executeFunction` as written: it returns a reply or throws. */
  datatype Outcome = Returned(reply: Reply) | Threw(exception: Exception)

  /**
   * `executeFunction` as written. Its catch block builds `Map.of("error", e.getMessage())`,
   * and `Map.of` rejects a null value with a NullPointerException (itself without a
   * message), which escapes the method.
   */
  function ExecuteAsWritten(name: string, args: map<string, Json>, store: Store): Outcome {
    match Dispatch(name)
    case None => Returned(ErrorJson(Some("Unknown function: " + name)))
    case Some(tool) =>
      match Handle(tool, args, store)
      case Done(r) => Returned(r)
      case Raised(e) => if e.message.Some? then Returned(ErrorJson(e.message)) else Threw(Exception(None))
  }

  /**
   * `executeFunction` with the catch-all doing what it is there for: every handler
   * exception, with or without a message, becomes an `{"error": message}` reply.
   */
  function Execute(name: string, args: map<string, Json>, store: Store): Reply {
    match Dispatch(name)
    case None => ErrorJson(Some("Unknown function: " + name))
    case Some(tool) =>
      match Handle(tool, args, store)
      case Done(r) => r
      case Raised(e) => ErrorJson(e.message)
  }

  /** As written, a handler exception without a message escapes `executeFunction`. */
  lemma AsWrittenThrowsOnSilentFailure(items: seq<Item>)
    ensures ExecuteAsWritten("getItemById", map["itemId" := JNull], Store(items, [], [], [], None)).Threw?
    ensures ExecuteAsWritten("getAllLoans", map[], Store(items, [], [], [], Some(Exception(None)))).Threw?
  {
  }

  /** The corrected gateway agrees with the original wherever the original returns. */
  lemma ExecuteExtendsAsWritten(name: string, args: map<string, Json>, store: Store)
    ensures ExecuteAsWritten(name, args, store).Returned? ==>
              ExecuteAsWritten(name, args, store).reply == Execute(name, args, store)
    ensures ExecuteAsWritten(name, args, store).Threw? ==>
              Execute(name, args, store) == ErrorJson(None)
  {
  }

  /** Every handler exception surfaces as an error reply carrying its message. */
  lemma ExceptionBecomesErrorReply(tool: Tool, args: map<string, Json>, store: Store)
    requires Handle(tool, args, store).Raised?
    ensures Execute(ToolName(tool), args, store) == ErrorJson(Handle(tool, args, store).exception.message)
  {
    DispatchTable(ToolName(tool), tool);
  }

  /** A name outside the dispatch table is answered with an error naming it. */
  lemma UnknownFunction(name: string, args: map<string, Json>, store: Store)
    requires name !in DispatchLabels
    ensures Execute(name, args, store) == ErrorJson(Some("Unknown function: " + name))
    ensures ExecuteAsWritten(name, args, store) == Returned(Execute(name, args, store))
  {
    DispatchTable(name, GetAllInventoryItems);
  }

  /** `getItemById` without `itemId` answers at once, whatever state the store is in. */
  lemma ItemIdRequired(args: map<string, Json>, store: Store)
    requires "itemId" !in args
    ensures Execute("getItemById", args, store) == ErrorJson(Some("itemId parameter is required"))
  {
  }

  /** `getItemById` finds exactly the items of the store, and names a missing id. */
  lemma ItemLookup(id: int, items: seq<Item>, vendors: seq<Vendor>, borrowers: seq<Borrower>, loans: seq<Loan>)
    ensures var r := Execute("getItemById", map["itemId" := JNum(id)], Store(items, vendors, borrowers, loans, None));
            && (r.ItemJson? <==> exists i :: 0 <= i < |items| && items[i].id == id)
            && (r.ItemJson? ==> r.item in items && r.item.id == id)
            && (!r.ItemJson? ==> r == ErrorJson(Some("Item not found with id: " + IntToString(id))))
  {
  }

  /** An absent `threshold` behaves exactly like an explicit threshold of 10. */
  lemma DefaultThresholdIsTen(args: map<string, Json>, store: Store)
    requires "threshold" !in args
    ensures Execute("getLowStockItems", args, store) == Execute("getLowStockItems", args["threshold" := JNum(10)], store)
  {
  }

  /** The low-stock selection keeps exactly the items strictly below the threshold. */
  lemma LowStockSelection(items: seq<Item>, threshold: int, item: Item)
    ensures item in LowStockItems(items, threshold) <==> item in items && item.quantity < threshold
    ensures forall i :: 0 <= i < |LowStockItems(items, threshold)| ==> LowStockItems(items, threshold)[i].quantity < threshold
  {
    FilterMembers((item: Item) => item.quantity < threshold, items, item);
    FilterSatisfies((item: Item) => item.quantity < threshold, items);
  }

  /** The selection keeps repository order: it distributes over a split of the repository. */
  lemma LowStockOrder(a: seq<Item>, b: seq<Item>, threshold: int)
    ensures LowStockItems(a + b, threshold) == LowStockItems(a, threshold) + LowStockItems(b, threshold)
  {
    FilterConcat((item: Item) => item.quantity < threshold, a, b);
  }

  /** Bullets of a concatenation are the concatenation of the bullets. */
  lemma BulletsConcat(a: seq<Item>, b: seq<Item>)
    ensures Bullets(a + b) == Bullets(a) + Bullets(b)
  {
    var la := seq(|a|, i requires 0 <= i < |a| => Bullet(a[i]));
    var lb := seq(|b|, i requires 0 <= i < |b| => Bullet(b[i]));
    assert seq(|a + b|, i requires 0 <= i < |a + b| => Bullet((a + b)[i])) == la + lb;
    ConcatAppend(la, lb);
  }

  /** A listing grows by one bullet per further item. */
  lemma BulletsSnoc(items: seq<Item>, i: nat)
    requires i < |items|
    ensures Bullets(items[..i + 1]) == Bullets(items[..i]) + Bullet(items[i])
  {
    BulletsConcat(items[..i], [items[i]]);
    assert items[..i] + [items[i]] == items[..i + 1];
    var one := seq(1, k requires 0 <= k < 1 => Bullet([items[i]][k]));
    assert one == [Bullet(items[i])];
    assert Concat(one) == Concat([]) + Bullet(items[i]);
  }

  predicate OneLine(item: Item) {
    '\n' !in item.name && '\n' !in item.price
  }

  /** A bullet is one line: it ends with the only newline it holds. */
  lemma BulletIsOneLine(x: Item)
    requires OneLine(x)
    ensures Occurrences('\n', Bullet(x)) == 1
  {
    IntToStringHasNoNewline(x.id);
    IntToStringHasNoNewline(x.quantity);
    var pieces := BulletPieces(x);
    forall i | 0 <= i < |pieces|
      ensures '\n' !in pieces[i]
    {
    }
    ConcatWithout('\n', pieces);
    OccurrencesAbsent('\n', Concat(pieces));
    OccurrencesConcat('\n', Concat(pieces), "\n");
  }

  /** A listing holds one line per item when names and prices are single-line. */
  lemma BulletsOnePerItem(items: seq<Item>)
    requires forall i :: 0 <= i < |items| ==> OneLine(items[i])
    ensures Occurrences('\n', Bullets(items)) == |items|
  {
    var lines := seq(|items|, i requires 0 <= i < |items| => Bullet(items[i]));
    forall i | 0 <= i < |lines|
      ensures Occurrences('\n', lines[i]) == 1
    {
      BulletIsOneLine(items[i]);
    }
    ConcatNewlines(lines);
  }

  /**
   * `getAllInventoryItems`: the header reports the number of items and is followed by
   * one bullet per item, in repository order.
   */
  method ListInventory(items: seq<Item>) returns (text: string)
    ensures text == InventoryHeader(|items|) + Bullets(items)
  {
    text := InventoryHeader(|items|);
    for i := 0 to |items|
      invariant text == InventoryHeader(|items|) + Bullets(items[..i])
    {
      BulletsSnoc(items, i);
      text := text + Bullet(items[i]);
    }
    assert items[..|items|] == items;
  }

  /**
   * `getLowStockItems` after the threshold is known: the header reports how many items
   * are below it; no such item gives the fixed "none" sentence, otherwise one bullet
   * per selected item.
   */
  method ListLowStock(items: seq<Item>, threshold: int) returns (text: string)
    ensures var low := LowStockItems(items, threshold);
            && IsPrefix(LowStockHeader(|low|, threshold), text)
            && (low == [] ==> text == LowStockHeader(0, threshold) + NoLowStock)
            && (low != [] ==> text == LowStockHeader(|low|, threshold) + Bullets(low))
  {
    var low := LowStockItems(items, threshold);
    text := LowStockHeader(|low|, threshold);
    if low == [] {
      text := text + NoLowStock;
    } else {
      for i := 0 to |low|
        invariant text == LowStockHeader(|low|, threshold) + Bullets(low[..i])
      {
        BulletsSnoc(low, i);
        text := text + Bullet(low[i]);
      }
      assert low[..|low|] == low;
    }
  }

  /** `executeFunction`; it never throws. */
  method ExecuteFunction(name: string, args: map<string, Json>, store: Store) returns (reply: Reply)
    ensures reply == Execute(name, args, store)
    ensures name !in DispatchLabels ==> reply == ErrorJson(Some("Unknown function: " + name))
  {
    DispatchTable(name, GetAllInventoryItems);
    var tool := Dispatch(name);
    if tool.None? {
      return ErrorJson(Some("Unknown function: " + name));
    }
    match tool.value
    case GetAllInventoryItems =>
      if store.failure.Some? {
        reply := ErrorJson(store.failure.value.message);
      } else {
        var text := ListInventory(store.items);
        reply := Text(text);
      }
    case GetLowStockItems =>
      var threshold := if "threshold" in args then ReadNumber(args["threshold"]) else Number(DefaultThreshold);
      if threshold.Failure? {
        reply := ErrorJson(threshold.exception.message);
      } else if store.failure.Some? {
        reply := ErrorJson(store.failure.value.message);
      } else {
        var text := ListLowStock(store.items, threshold.value);
        reply := Text(text);
      }
    case _ =>
      reply := match Handle(tool.value, args, store)
        case Done(r) => r
        case Raised(e) => ErrorJson(e.message);
  }
}
