/**
 * The tool catalog (`ChatbotToolsConfig.chatbotTools`): the fixed list of function
 * declarations sent to the remote model, and its agreement with the gateway's
 * dispatch table.
 */
module ToolsCatalog {
  import opened Common
  import opened Seqs
  import QueryGateway

  /** One entry of a parameter schema's `properties`. */
  datatype Property = Property(kind: string, description: string)

  /**
   * A JSON-schema object: its `type`, its `properties` and, when the declaration has
   * one, its `required` list.
   */
  datatype Schema = Schema(kind: string, properties: map<string, Property>, required: Option<seq<string>>)

  datatype FunctionDeclaration = FunctionDeclaration(name: string, description: string, parameters: Schema)

  /** The schema of a tool that takes no arguments. */
  const NoArguments: Schema := Schema("object", map[], None)

  const ChatbotTools: seq<FunctionDeclaration> := [
    FunctionDeclaration(
      "getAllInventoryItems",
      "Retrieves all inventory items in the system. Use when user asks about inventory, items, stock, or products.",
      NoArguments),
    FunctionDeclaration(
      "getAllVendors",
      "Retrieves all vendors. Use when user asks about vendors or suppliers.",
      NoArguments),
    FunctionDeclaration(
      "getAllBorrowers",
      "Retrieves all borrowers. Use when user asks about borrowers or users.",
      NoArguments),
    FunctionDeclaration(
      "getAllLoans",
      "Retrieves all loans. Use when user asks about loans or borrowed items.",
      NoArguments),
    FunctionDeclaration(
      "getItemById",
      "Retrieves a specific item by its ID. Use when user asks about a specific item.",
      Schema("object",
        map["itemId" := Property("number", "The ID of the item to retrieve")],
        Some(["itemId"]))),
    FunctionDeclaration(
      "getLowStockItems",
      "Retrieves items with low stock levels. Use when user asks about low stock, items running out, or inventory alerts.",
      Schema("object",
        map["threshold" := Property("number", "The quantity threshold below which items are considered low stock (default: 10)")],
        None))
  ]

  /** The declared names, in catalog order. */
  function Names(tools: seq<FunctionDeclaration>): (r: seq<string>)
    ensures |r| == |tools|
    ensures forall i :: 0 <= i < |tools| ==> r[i] == tools[i].name
  {
    seq(|tools|, i requires 0 <= i < |tools| => tools[i].name)
  }

  /** Six declarations, in this order. */
  lemma CatalogOrder()
    ensures Names(ChatbotTools) ==
      ["getAllInventoryItems", "getAllVendors", "getAllBorrowers", "getAllLoans", "getItemById", "getLowStockItems"]
  {
  }

  /** No two declarations share a name. */
  lemma CatalogNamesDistinct()
    ensures Distinct(Names(ChatbotTools))
  {
    CatalogOrder();
  }

  /**
   * The catalog and the dispatch table name the same tools: every declared name is a
   * `case` label of the gateway, every label is declared, and each declaration
   * reaches the handler of the same name.
   */
  lemma CatalogMatchesDispatch()
    ensures forall name :: name in Names(ChatbotTools) <==> name in QueryGateway.DispatchLabels
    ensures forall i :: 0 <= i < |ChatbotTools| ==>
              QueryGateway.Dispatch(ChatbotTools[i].name).Some? &&
              QueryGateway.ToolName(QueryGateway.Dispatch(ChatbotTools[i].name).value) == ChatbotTools[i].name
  {
    CatalogOrder();
    var names := Names(ChatbotTools);
    forall i | 0 <= i < |ChatbotTools|
      ensures QueryGateway.Dispatch(ChatbotTools[i].name).Some?
    {
      assert ChatbotTools[i].name == names[i];
    }
  }

  /** `getItemById` takes a required numeric `itemId`. */
  lemma ItemIdDeclaredRequired()
    ensures ChatbotTools[4].name == "getItemById"
    ensures ChatbotTools[4].parameters.properties.Keys == {"itemId"}
    ensures ChatbotTools[4].parameters.properties["itemId"].kind == "number"
    ensures ChatbotTools[4].parameters.required == Some(["itemId"])
  {
  }

  /** `getLowStockItems` takes an optional numeric `threshold`, documented as defaulting to 10. */
  lemma ThresholdDeclaredOptional()
    ensures ChatbotTools[5].name == "getLowStockItems"
    ensures ChatbotTools[5].parameters.properties.Keys == {"threshold"}
    ensures ChatbotTools[5].parameters.properties["threshold"].kind == "number"
    ensures ChatbotTools[5].parameters.required.None?
  {
  }

  /** The four listing tools declare an object schema with no properties and no required list. */
  lemma ListingToolsTakeNoArguments()
    ensures forall i :: 0 <= i < 4 ==>
              ChatbotTools[i].parameters.kind == "object" &&
              ChatbotTools[i].parameters.properties == map[] &&
              ChatbotTools[i].parameters.required.None?
  {
  }
}
