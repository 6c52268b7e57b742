# FlowTrack core, modelled in Dafny

FlowTrack is an inventory-management web application: items, vendors, borrowers and
loans, a dashboard with live charts, reports, user registration, and a chatbot that
answers questions by letting a remote language model call read-only database tools.
This project models the logic at the heart of those features and proves what it promises.

- `chat_service.dfy` (`GeminiChat`): the chatbot's conversation loop. It makes at most
  five calls to the remote model. Only the first part of the first candidate is
  read. A function call runs a tool and extends the transcript. A text part is the
  answer. Every failure is mapped to a user-facing string. The remote model is an
  oracle: a function from the round number and the request to what that call produced.
- `query_gateway.dfy` (`QueryGateway`): the tool dispatcher and its six read-only
  handlers over a `Store` of repository contents.
- `tools_catalog.dfy` (`ToolsCatalog`): the six tool declarations sent to the model, and
  their agreement with the dispatcher.
- `home_controller.dfy` (`Dashboard`): the dashboard counters and the per-day history.
- `dashboard_tracking.dfy` (`SnapshotTracking`): the snapshot table, as a class, and the
  20 most recent snapshots.
- `report_service.dfy` (`Reports`): the stock, borrow-history, currently-borrowed and
  issued-items reports. `GetItemStockReport`, `GetTotalItemsCount` and
  `GetTotalLoansCount` return the item repository, its size and the loan repository's
  size.
- `dashboard_charts.dfy` (`DashboardCharts`): the data behind the dashboard's four
  charts (labels, values, title). Charts are objects that the page's polling updates
  in place. A chart keeps a sliding window of 20 points.
- `vendor_controller.dfy` (`Vendors`): vendor deletion, guarded by the items that still
  reference the vendor.
- `user_service.dfy` (`Users`): registration with the default role or a named role,
  and profile updates, over a user table and a role table.
- Shared modules:
  - `inventory.dfy`: the entities and the loan/stock classifications.
  - `json.dfy`: JSON argument values.
  - `common.dfy`, `text.dfy` and `seqs.dfy`: `Option`, decimal rendering and substring
    search, and filters, counts and sums over sequences.

Integers are unbounded, except where Java `int` arithmetic matters. The inventory
total is the 32-bit wrap-around of the quantity sum (`Inventory.Int32`).

## Model

| member | source | states |
|---|---|---|
| `GeminiChat.Chat` | src/main/java/com/example/IMS/chatbot/service/GeminiChatService.java:34-128 | Every path returns the string for how the invocation ended. That ending is the one the round-by-round specification `Converse` gives. This includes a null message, which fails while the first request is built. No exception leaves `chat`. |
| `GeminiChat.HandleOutcome` | src/main/java/com/example/IMS/chatbot/service/GeminiChatService.java:49-107 | One round checks the reply in the source's order: a null body, then missing or empty candidates, missing content, and missing or empty parts. A function call in the first part runs the tool through the gateway and appends the call and its result. A text part ends the round with that text. A part with neither leaves the transcript as it was. |
| `GeminiChat.NotConfiguredShortCircuits` | src/main/java/com/example/IMS/chatbot/service/GeminiChatService.java:37-39 | A null key or the placeholder key answers with the not-configured warning, and the model is never called. |
| `GeminiChat.CallsAtMostFive` | src/main/java/com/example/IMS/chatbot/service/GeminiChatService.java:41-48 | An invocation calls the model at most five times. A configured invocation calls it at least once exactly when the message is not null. |
| `GeminiChat.NullMessageFailsAtOnce` | src/main/java/com/example/IMS/chatbot/service/GeminiChatService.java:41-44 | With a configured key, a null message makes building the first request throw without a message. The model is never called, and the reply is "❌ Error: null". |
| `GeminiChat.LoopCallsBounded` | src/main/java/com/example/IMS/chatbot/service/GeminiChatService.java:47-108 | From round r on, at most 5 - r calls are made, and at least one while rounds remain. |
| `GeminiChat.WellFormedExtend` | src/main/java/com/example/IMS/chatbot/service/GeminiChatService.java:90-103 | Appending a model call and the gateway's response to that same call keeps a transcript well formed. |
| `GeminiChat.LoopTranscript` | src/main/java/com/example/IMS/chatbot/service/GeminiChatService.java:47-107 | Rounds only extend the transcript. They extend it by whole call/response pairs, at most two entries per remaining round, and keep it well formed. |
| `GeminiChat.TranscriptShape` | src/main/java/com/example/IMS/chatbot/service/GeminiChatService.java:41-103 | A configured invocation's transcript starts with exactly the user's message. Each later pair is a model call followed by a response carrying the same name and the gateway's result. It has at most 11 entries. |
| `GeminiChat.LoopAllToolCalls` | src/main/java/com/example/IMS/chatbot/service/GeminiChatService.java:47-110 | If the model always asks for a function, every remaining round calls it once and adds one pair. The loop then runs out. |
| `GeminiChat.AlwaysCallingExhausts` | src/main/java/com/example/IMS/chatbot/service/GeminiChatService.java:47-110 | A model that always asks for a function gets five calls and five tool runs, and the user gets the apology. |
| `GeminiChat.MalformedReplyEndsAtOnce` | src/main/java/com/example/IMS/chatbot/service/GeminiChatService.java:52-76 | A null reply, missing or empty candidates, missing content, or missing or empty parts each ends the invocation in that round with its own message and the transcript unchanged. |
| `GeminiChat.FirstPartDecides` | src/main/java/com/example/IMS/chatbot/service/GeminiChatService.java:78-107 | Only the first part is examined, and a function call takes precedence over text. The call runs the tool once under the call's name and appends the call and its result. A text alone is returned verbatim. A part with neither moves to the next round with the same transcript. |
| `GeminiChat.MissingArgsAreEmpty` | src/main/java/com/example/IMS/chatbot/service/GeminiChatService.java:84-86 | A function call without arguments is dispatched with an empty argument map. |
| `GeminiChat.QuotaOnStatus429` | src/main/java/com/example/IMS/chatbot/service/GeminiChatService.java:112-119 | A 429 status always yields the quota message. |
| `GeminiChat.ApiErrorOnOtherStatus` | src/main/java/com/example/IMS/chatbot/service/GeminiChatService.java:121-124 | Any other status yields the API-error prefix, the first min(200, length) characters of the status message, and "...". This holds when the message does not contain "429". |
| `GeminiChat.OtherExceptionsReported` | src/main/java/com/example/IMS/chatbot/service/GeminiChatService.java:112-127 | An exception whose message mentions neither 429 nor a status yields the error prefix and its message, or "null" when there is no message. |
| `GeminiChat.StatusEndsAtOnce` | src/main/java/com/example/IMS/chatbot/service/GeminiChatService.java:162-164 | A non-200 status in any round ends the invocation after that one call. The ending carries the message "API returned status code: body". |
| `GeminiChat.LowStockScenario` | src/main/java/com/example/IMS/chatbot/service/GeminiChatService.java:81-106 | The model asks for `getLowStockItems` without arguments, then answers in text. The answer comes back after two calls. The transcript's third entry is the gateway's listing for threshold 10. |
| `GeminiChat.QuotaScenario` | src/main/java/com/example/IMS/chatbot/service/GeminiChatService.java:112-119 | A 429 on the first call answers with the quota message after that single call. |
| `QueryGateway.ExecuteFunction` | src/main/java/com/example/IMS/chatbot/service/ChatbotDatabaseService.java:26-53 | It computes the corrected gateway `Execute`, so it never throws. An unknown name is answered with an error naming it. The store is only an input, so no repository is written. |
| `QueryGateway.Dispatch` | src/main/java/com/example/IMS/chatbot/service/ChatbotDatabaseService.java:28-49 | A name reaches a tool only when the name is that tool's label. |
| `QueryGateway.DispatchTable` | src/main/java/com/example/IMS/chatbot/service/ChatbotDatabaseService.java:28-49 | Each tool is reached through its own label, and exactly the six labels reach a tool. |
| `QueryGateway.ReadNumber` | src/main/java/com/example/IMS/chatbot/service/ChatbotDatabaseService.java:91 | An argument reads as a number exactly when it is a JSON number, and then it is that number. Anything else is a failure. |
| `QueryGateway.FindById` | src/main/java/com/example/IMS/chatbot/service/ChatbotDatabaseService.java:92 | It finds an item of the repository carrying the id. It finds none exactly when no item carries it. |
| `QueryGateway.ListInventory` | src/main/java/com/example/IMS/chatbot/service/ChatbotDatabaseService.java:55-69 | The header counts the items, followed by one bullet per item in repository order. |
| `QueryGateway.ListLowStock` | src/main/java/com/example/IMS/chatbot/service/ChatbotDatabaseService.java:109-130 | The header counts the items strictly below the threshold. No such item gives the fixed sentence. Otherwise one bullet follows per selected item. |
| `QueryGateway.ExceptionBecomesErrorReply` | src/main/java/com/example/IMS/chatbot/service/ChatbotDatabaseService.java:50-52 | Every handler exception becomes an error reply carrying the exception's message. |
| `QueryGateway.UnknownFunction` | src/main/java/com/example/IMS/chatbot/service/ChatbotDatabaseService.java:47-48 | A name outside the dispatch table is answered with "Unknown function: " and the name, both as written and in the corrected gateway. |
| `QueryGateway.ItemIdRequired` | src/main/java/com/example/IMS/chatbot/service/ChatbotDatabaseService.java:87-89 | `getItemById` without `itemId` answers with the required-parameter error, whatever the store's state. |
| `QueryGateway.ItemLookup` | src/main/java/com/example/IMS/chatbot/service/ChatbotDatabaseService.java:91-98 | `getItemById` returns an item exactly when the repository holds that id, and the item it returns carries that id. Otherwise it returns "Item not found with id: " and the id. |
| `QueryGateway.DefaultThresholdIsTen` | src/main/java/com/example/IMS/chatbot/service/ChatbotDatabaseService.java:102-107 | An absent threshold behaves exactly like a threshold of 10. |
| `QueryGateway.LowStockSelection` | src/main/java/com/example/IMS/chatbot/service/ChatbotDatabaseService.java:110-112 | The selection holds exactly the items strictly below the threshold. |
| `QueryGateway.LowStockOrder` | src/main/java/com/example/IMS/chatbot/service/ChatbotDatabaseService.java:109-112 | The selection keeps repository order: it distributes over a split of the repository. |
| `QueryGateway.BulletIsOneLine` | src/main/java/com/example/IMS/chatbot/service/ChatbotDatabaseService.java:61-65 | A bullet holds exactly one newline when the item's name and price have none. |
| `QueryGateway.BulletsOnePerItem` | src/main/java/com/example/IMS/chatbot/service/ChatbotDatabaseService.java:60-66 | A listing has one line per item. |
| `QueryGateway.AsWrittenThrowsOnSilentFailure` | src/main/java/com/example/IMS/chatbot/service/ChatbotDatabaseService.java:50-52 | As written, a handler exception without a message escapes the dispatcher. |
| `QueryGateway.ExecuteExtendsAsWritten` | src/main/java/com/example/IMS/chatbot/service/ChatbotDatabaseService.java:50-52 | Wherever the code as written returns, the corrected gateway returns the same reply. Where the code throws, the corrected gateway gives an error reply with a null message. |
| `ToolsCatalog.CatalogOrder` | src/main/java/com/example/IMS/chatbot/config/ChatbotToolsConfig.java:16-84 | The catalog holds exactly six declarations, in the source's order. |
| `ToolsCatalog.CatalogNamesDistinct` | src/main/java/com/example/IMS/chatbot/config/ChatbotToolsConfig.java:17-73 | No two declarations share a name. |
| `ToolsCatalog.CatalogMatchesDispatch` | src/main/java/com/example/IMS/chatbot/config/ChatbotToolsConfig.java:12-87 | The declared names are exactly the dispatcher's labels, and each declaration reaches the handler of its own name. |
| `ToolsCatalog.ItemIdDeclaredRequired` | src/main/java/com/example/IMS/chatbot/config/ChatbotToolsConfig.java:57-67 | `getItemById` declares a single numeric `itemId` and lists it as required. |
| `ToolsCatalog.ThresholdDeclaredOptional` | src/main/java/com/example/IMS/chatbot/config/ChatbotToolsConfig.java:73-82 | `getLowStockItems` declares a single numeric `threshold` with no required list. |
| `ToolsCatalog.ListingToolsTakeNoArguments` | src/main/java/com/example/IMS/chatbot/config/ChatbotToolsConfig.java:16-52 | The four listing tools declare an object schema with no properties and no required list. |
| `Inventory.OutstandingReturnedPartition` | src/main/java/com/example/IMS/controller/HomeController.java:43-50 | Every loan is either borrowed (null or empty return date) or returned, never both. |
| `Inventory.Int32` | src/main/java/com/example/IMS/controller/HomeController.java:53-55 | Java `int` arithmetic: the result lies in 32-bit range, is congruent to the exact value, and equals it when it fits. |
| `Inventory.InventoryRemaining` | src/main/java/com/example/IMS/controller/HomeController.java:53-55 | The inventory total is the sum of the quantities whenever that sum fits in an `int`. |
| `Dashboard.GetDashboardStats` | src/main/java/com/example/IMS/controller/HomeController.java:35-82 | Borrowed plus returned equals issued, which equals the total loans and the number of loans. The total items is the number of items. |
| `Dashboard.StatsCounters` | src/main/java/com/example/IMS/controller/HomeController.java:43-70 | The borrowed and returned counters count exactly the loans with and without a return date. The inventory total is the 32-bit quantity sum. The low-stock counter counts exactly the items below 10. |
| `Dashboard.GroupByTypeCounts` | src/main/java/com/example/IMS/controller/HomeController.java:61-65 | The type groups are exactly the keys some item has, and each group counts its items. |
| `Dashboard.TypeCountPositive` | src/main/java/com/example/IMS/controller/HomeController.java:61-65 | Every item's own group is non-empty. |
| `Dashboard.UntypedItemsAreUnknown` | src/main/java/com/example/IMS/controller/HomeController.java:63 | An item without a type makes an "Unknown" group appear. |
| `Dashboard.GroupTotalIsItemCount` | src/main/java/com/example/IMS/controller/HomeController.java:61-78 | The group counts add up to the total items. |
| `Dashboard.SnapshotAgreesWithStats` | src/main/java/com/example/IMS/service/DashboardTrackingService.java:29-41 | A snapshot of the same items and loans carries the same four counters as the dashboard stats. |
| `Dashboard.DayKeys` | src/main/java/com/example/IMS/controller/HomeController.java:94-101 | The day keys number no more than the snapshots. |
| `Dashboard.DayKeysAreLatestKeys` | src/main/java/com/example/IMS/controller/HomeController.java:94-101 | The listed days are exactly the days whose latest snapshot is kept. |
| `Dashboard.DayKeysCover` | src/main/java/com/example/IMS/controller/HomeController.java:97-101 | A day is listed exactly when some snapshot falls on it. |
| `Dashboard.DayKeysDistinct` | src/main/java/com/example/IMS/controller/HomeController.java:94-104 | No day is listed twice. |
| `Dashboard.LatestIsLastOfDay` | src/main/java/com/example/IMS/controller/HomeController.java:97-101 | Each day keeps a snapshot of that day, and no later snapshot falls on that day. |
| `Dashboard.DayKeysFirstSeenOrder` | src/main/java/com/example/IMS/controller/HomeController.java:94-104 | Days are listed in order of first appearance. Each snapshot of a later-listed day comes after some snapshot of every earlier-listed day. |
| `Dashboard.PointsShape` | src/main/java/com/example/IMS/controller/HomeController.java:104-115 | There is one point per listed day, in the same order, each built from that day's snapshot. |
| `Dashboard.HistoryShape` | src/main/java/com/example/IMS/controller/HomeController.java:86-118 | The history has one point per distinct day of the chronological snapshots, in first-appearance order. Each point carries its day's latest snapshot. There are no more points than snapshots. |
| `Dashboard.ReverseInPlace` | src/main/java/com/example/IMS/controller/HomeController.java:91 | The snapshot array is reversed in place. |
| `Dashboard.GroupByDay` | src/main/java/com/example/IMS/controller/HomeController.java:97-101 | The first loop yields the day keys in first-seen order and, for each day, its last snapshot. |
| `Dashboard.ListDays` | src/main/java/com/example/IMS/controller/HomeController.java:104-115 | The second loop emits one point per key, in key order. |
| `Dashboard.GetDashboardHistory` | src/main/java/com/example/IMS/controller/HomeController.java:86-118 | It computes the history specification, whose shape `HistoryShape` states. |
| `SnapshotTracking.Snapshot` | src/main/java/com/example/IMS/service/DashboardTrackingService.java:29-50 | Borrowed plus returned equals issued, which equals the number of loans. Borrowed counts the loans without a return date, and returned counts the others. The inventory is the quantity sum when it fits in an `int`. The snapshot carries the given time and event type. |
| `SnapshotTracking.DashboardTrackingService.CaptureSnapshot` | src/main/java/com/example/IMS/service/DashboardTrackingService.java:25-53 | It appends exactly one snapshot, computed from the items and loans at that instant and carrying the event type. The snapshot table is the only thing written, and it stays chronological. |
| `SnapshotTracking.DashboardTrackingService.GetRecentSnapshots` | src/main/java/com/example/IMS/service/DashboardTrackingService.java:55-57 | It returns exactly the last min(20, n) snapshots of the table, newest first: entry i is the table's (n-1-i)-th row. Every snapshot left out is no newer than the oldest one returned. |
| `SnapshotTracking.CaptureShowsFirst` | src/main/java/com/example/IMS/service/DashboardTrackingService.java:43-57 | After a capture, the new snapshot heads the recent list. |
| `Reports.GetLowStockItemsCount` | src/main/java/com/example/IMS/service/ReportService.java:34-38 | It counts exactly the items below 10, never more than the total items. It is zero exactly when every item has at least 10. |
| `Reports.LowStockAgreesWithDashboard` | src/main/java/com/example/IMS/service/ReportService.java:34-38 | The report's low-stock count equals the dashboard's. |
| `Reports.GetBorrowHistoryReport` | src/main/java/com/example/IMS/service/ReportService.java:41-46 | It returns exactly the loans with a non-null, non-empty issue date, whatever the dates passed. |
| `Reports.BorrowHistoryKeepsOrder` | src/main/java/com/example/IMS/service/ReportService.java:41-46 | The report keeps repository order: it distributes over a split of the loans. |
| `Reports.GetCurrentlyBorrowedCount` | src/main/java/com/example/IMS/service/ReportService.java:77-81 | It counts exactly the loans with a null or empty return date, never more than the total loans. |
| `Reports.GetCurrentlyBorrowedItems` | src/main/java/com/example/IMS/service/ReportService.java:54-74 | There is one row per outstanding loan, in repository order, and as many rows as the borrowed count. Each row names the borrower in full and has due date "N/A". |
| `Reports.IssuedRowOf` | src/main/java/com/example/IMS/service/ReportService.java:90-98 | The status is "Borrowed" exactly when the loan is outstanding, and then there is no return date. Otherwise the status is "Returned" and carries the loan's return date. |
| `Reports.GetIssuedItemsReport` | src/main/java/com/example/IMS/service/ReportService.java:84-102 | There is one row per loan, in repository order, whatever the dates passed. |
| `Reports.GetTotalIssuedCount` | src/main/java/com/example/IMS/service/ReportService.java:104-107 | It equals the total loans and the number of rows in the issued-items report. |
| `Reports.BorrowedRowsMatchBorrowedCount` | src/main/java/com/example/IMS/service/ReportService.java:77-101 | The issued-items report marks as many rows "Borrowed" as the borrowed count. |
| `DashboardCharts.IndexOf` | src/main/resources/static/js/dashboard-charts.js:129 | It returns the first position holding the label, or -1 exactly when the label is absent. |
| `DashboardCharts.SetAt` | src/main/resources/static/js/dashboard-charts.js:152 | Inside the array only the entry at the index changes. Past its end the array grows to index + 1, with holes between the old end and the new entry. |
| `DashboardCharts.PushedTimesUnderCap` | src/main/resources/static/js/dashboard-charts.js:161-168 | While the window has room, n pushes of a label append n copies of it. |
| `DashboardCharts.LabelArray.constructor` | src/main/resources/static/js/dashboard-charts.js:41 | A labels array holds the labels it was built from. |
| `DashboardCharts.Chart.constructor` | src/main/resources/static/js/dashboard-charts.js:62-100 | A new chart keeps the caller's labels array itself, not a copy, and the given values. Its title is the last value, or 0 when there are none. |
| `DashboardCharts.UpdateExistingPoint` | src/main/resources/static/js/dashboard-charts.js:149-155 | The value at the index is written, and an index past the end grows the values with holes. The labels stay, and the title becomes the value. A missing chart is left alone. |
| `DashboardCharts.UpdateChart` | src/main/resources/static/js/dashboard-charts.js:158-172 | The label is pushed onto the chart's labels array, which every chart holding that array sees, and the value onto the chart's values. When the labels then exceed 20, the first label and the first value are dropped. The title becomes the value. Only the chart and its labels array are written. A missing chart is left alone. |
| `DashboardCharts.SlidingWindow` | src/main/resources/static/js/dashboard-charts.js:161-168 | Pushing onto at most 20 points keeps the last min(n + 1, 20) points of the extended series, ending with the new one. |
| `DashboardCharts.ItemsAtCounts` | src/main/resources/static/js/dashboard-charts.js:139-142 | After the first j calls of an append, a labels array has received the label once for each of those charts holding it, each push with its own window check. |
| `DashboardCharts.DataAtCounts` | src/main/resources/static/js/dashboard-charts.js:139-142 | After the first j calls of an append, a chart's values have received its value exactly when it was among them. The first value is dropped when the pushes made onto its labels array before its own had filled the window. |
| `DashboardCharts.TitlesShowValues` | src/main/resources/static/js/dashboard-charts.js:139-142 | After the four calls of an append, every chart's title shows its own series' latest value. |
| `DashboardCharts.HoldersInShared` | src/main/resources/static/js/dashboard-charts.js:54-57 | When every chart holds the same labels array, each call of an append is made by a holder of that array. |
| `DashboardCharts.AppendPairedKeepsPairing` | src/main/resources/static/js/dashboard-charts.js:137-143 | The corrected append pushes the label once and each chart's value once, with one window check. Labels and values that were paired stay paired: the window keeps at most 20 points, the new label sits over each chart's new value, and every older value keeps its label. |
| `DashboardCharts.NewCharts` | src/main/resources/static/js/dashboard-charts.js:62-100 | One new chart per key, each a distinct object. Each holds the labels array passed for its key, which is one object when the caller passes the same array to all four, and that key's series. Each is titled with the series' last value, or 0. |
| `DashboardCharts.ChartBoard.CreateCharts` | src/main/resources/static/js/dashboard-charts.js:54-57 | Every chart with a canvas is replaced by a new one holding the labels array passed for it and its own series. No chart is created without a canvas. |
| `DashboardCharts.ChartBoard.InitializeCharts` | src/main/resources/static/js/dashboard-charts.js:26-110 | A non-empty history builds one labels array, each point's date or "Today", and all four charts share that array. Each chart plots its series, and the last point's timestamp is remembered. An empty history shows one point for today from the stats, with a labels array per chart, and leaves the timestamp unset. Null stats create nothing. |
| `DashboardCharts.ChartBoard.NoUpdatesWithoutTimestamp` | src/main/resources/static/js/dashboard-charts.js:118-120 | Until a timestamp is remembered, no poll finds news. |
| `DashboardCharts.ChartBoard.CheckForUpdates` | src/main/resources/static/js/dashboard-charts.js:113-146 | Nothing changes without news: an empty history, an unset timestamp, or an unchanged latest timestamp. With news the timestamp is remembered. When the label is found among the borrowed labels, every chart's value at that index is written, growing the values with holes past their end. Otherwise the append runs as written. A missing borrowed chart changes no chart. |
| `DashboardCharts.ChartBoard.UpdatePointEverywhere` | src/main/resources/static/js/dashboard-charts.js:131-136 | Every chart's value at the index becomes the latest point's value for that chart, past the end with holes. Labels stay. |
| `DashboardCharts.ChartBoard.AppendEverywhere` | src/main/resources/static/js/dashboard-charts.js:137-143 | As written: each labels array receives the label once for each chart holding it, each push with its own window check. Each chart's values receive its value once. The first value is dropped when its labels had overflowed by the time of its own push. Every title shows its value. |
| `DashboardCharts.ChartBoard.UpdateInOrder` | src/main/resources/static/js/dashboard-charts.js:139-142 | The four calls, in the source's order, leave every chart as `Appended` describes from the labels, values and titles they started from. |
| `DashboardCharts.ChartBoard.ShowsAppended` | src/main/resources/static/js/dashboard-charts.js:139-142 | Charts showing the outcome of the four stages are as `Appended` describes, with titles showing their values. |
| `DashboardCharts.ChartBoard.UpdateChartInTurn` | src/main/resources/static/js/dashboard-charts.js:139-142 | One call of an append: the label push reaches every chart holding that chart's labels array. The value push and the new title reach that chart only. |
| `DashboardCharts.ChartBoard.SharedLabelsDrift` | src/main/resources/static/js/dashboard-charts.js:139-142 | With the one labels array of a non-empty history and room in the window, an append pushes the label four times and each chart's value once. Paired labels and values end with three more labels than values. |
| `Vendors.VendorController.DeleteVendor` | src/main/java/com/example/IMS/controller/VendorController.java:49-73 | With referencing items nothing is deleted, and the error states their number. Without them exactly that vendor is removed and success is reported. An integrity violation or any other failure leaves the vendors as they were and reports its error, never success. The items are never written. Every path redirects to the vendor list. |
| `Vendors.NoAssociatedItems` | src/main/java/com/example/IMS/controller/VendorController.java:52-57 | The count is zero exactly when every item has no vendor or another vendor. |
| `Vendors.VendorlessItemsNeverCount` | src/main/java/com/example/IMS/controller/VendorController.java:54 | Items without a vendor never count toward the guard. |
| `Vendors.GuardMessageStatesCount` | src/main/java/com/example/IMS/controller/VendorController.java:57-59 | The guard's message contains the count, and the count can be read back from it. |
| `Users.UserService.RegisterUser` | src/main/java/com/example/IMS/service/UserService.java:29-54 | A taken username fails first, then a taken email. A null password then fails in the encoder, and a missing ROLE_USER fails. Neither saves anything. Otherwise it saves an enabled user with exactly ROLE_USER and the encoded password. Usernames stay unique, and so do emails when they were. |
| `Users.UserService.RegisterUserWithRole` | src/main/java/com/example/IMS/service/UserService.java:58-85 | The same duplicate checks apply. A null password then fails in the encoder, before any role is created. Otherwise the named role is created when absent and becomes the new user's only role. Uniqueness is kept as in `RegisterUser`. |
| `Users.UserService.UpdateUser` | src/main/java/com/example/IMS/service/UserService.java:104-117 | An unknown id fails with "User not found". Otherwise only that user changes: its names and email are replaced. Its password changes only for a non-empty new one. Its username never changes. |
| `Users.UserService.Save` | src/main/java/com/example/IMS/service/UserService.java:38-53 | The new user goes under the next id with the form's fields, enabled, with the one role. The role table is untouched. Callers reach it only with a non-null password, which the encoder accepts. |
| `Users.Updated` | src/main/java/com/example/IMS/service/UserService.java:108-114 | Identity, username, roles and enabled flag are kept. The names and email come from the form. The password is re-encoded only for a non-null, non-empty one. |
| `Users.AddingFreshUserKeepsUnique` | src/main/java/com/example/IMS/service/UserService.java:30-53 | Adding a user whose username and email are both new keeps usernames and emails unique. |
| `Users.RegisteredUsernameWasFree` | src/main/java/com/example/IMS/service/UserService.java:30-32 | The duplicate check is necessary: a saved user keeps usernames unique only when no existing user had that username. |

## Left out

- The HTTP transport and JSON text are left out. This covers the request body's Gson serialisation, the URL and key, and the console logging. The remote model is an oracle. A reply is a typed envelope whose optional fields stand for the `has` checks. Gson decoding failures, and fields of the wrong JSON type, appear only as an exception with some message.
- The gateway's replies are values, not Gson text. A null error message is JSON `null`.
- QueryGateway.ReadNumber: JSON numbers are unbounded integers. Gson reads them as `Double`, and `longValue()` and `intValue()` round toward zero and saturate at the Java bounds. A threshold of 1e12 therefore becomes 2147483647 in the source, and the header prints that value. Fractions and out-of-range numbers are not modelled. The ClassCastException message for an argument of another JSON type depends on the JVM. The model keeps the first clause of the Java 11 text, "class X cannot be cast to class java.lang.Number". It omits the module-and-loader clause that Java 11 adds, and Java 8's shorter form is not modelled.
- GeminiChat.Chat: the chat is built on the corrected gateway `Execute`. As written, a handler exception without a message escapes `executeFunction` (see Findings), and `chat` then returns "❌ Error: null" at once. The model instead gives the remote model an error result with a null message and goes on to the next round.
- GeminiChat.ApiErrorOnOtherStatus: the 200-character cut counts Unicode code points, because strings are sequences of characters. Java's `substring` counts UTF-16 code units and can split a surrogate pair, so the two differ on messages with characters outside the Basic Multilingual Plane.
- Dashboard.GroupByTypeCounts: type names are never null in the model. A present item type whose name is null makes `groupingBy` throw "element cannot be mapped to a null key", which the model does not express. `ItemType.java` is not part of this model, so whether the entity allows a null name is not known here.
- Floating point is left out: prices and fines are the strings Java prints for them and are only copied.
- Dates are left out. The day formatter ("MMM d" on the server, `toLocaleDateString` in the browser) is a parameter. `LocalDateTime.now()` is the `now` parameter. The report date arguments are accepted and ignored, as in the source.
- SnapshotTracking.DashboardTrackingService.CaptureSnapshot: requires the clock not to run backwards. With that, the recent list is the last 20 snapshots, newest first. Ties between equal timestamps are ordered by insertion, which the database does not promise.
- Chart.js drawing, the DOM, `fetch` and the timers (`setTimeout`, `setInterval`) are left out. The page's responses are passed in.
- DashboardCharts.ChartBoard.CheckForUpdates: when the borrowed chart is missing, the script throws at the label lookup after remembering the timestamp. The model returns there without touching the charts.
- `chatbot.js`, the other controllers, `DataInitializer` and the security configuration are not part of this model.
- Vendors.VendorController.DeleteVendor: the item's vendor id and the path id are boxed `Long`s compared with `==`. The model compares their values. Whether the repository read or the delete fails, and how, is the `Fault` parameter. This includes deleting an id that does not exist.
- Users: password encoding (BCrypt) is opaque. `Encoded(raw)` stands for the encoder's output for a non-null password. A null password makes the encoder throw. The model gives that failure Spring Security 5's message, "rawPassword cannot be null". Older versions throw a NullPointerException without a message.
- Users: the lookup methods (`findByUsername`, `findByEmail`, `getAllUsers`, `existsBy...`) and `deleteUser` are plain repository calls and are left out.
- Users.UserService.UpdateUser: does not check that the new email is free, as in the source. Email uniqueness is therefore kept by registration only, not as a class invariant.
- Transactional rollback is implicit: a failing method returns before it writes.

## Findings

| source | as written | input that shows it | evidently intended | confidence | as-written member | corrected member |
|---|---|---|---|---|---|---|
| src/main/java/com/example/IMS/chatbot/service/ChatbotDatabaseService.java:50-52 | The catch-all builds its error map with `Map.of`, which rejects a null value. An exception without a message therefore throws again from the catch block and escapes `executeFunction`. `chat` then reports "❌ Error: null" instead of handing the model an error result. | A repository failure whose exception has no message. Or, on JVMs without helpful NullPointerException messages (before Java 14), `getItemById` with `itemId` = JSON `null`. | Every handler exception becomes an `{"error": message}` reply, and the dispatcher never throws. | medium; not executed | `QueryGateway.AsWrittenThrowsOnSilentFailure` | `QueryGateway.ExecuteExtendsAsWritten` |
| src/main/resources/static/js/dashboard-charts.js:139-142 | The four `updateChart` calls each push the label onto the one labels array that all four charts share (:41, :54-57), and each runs its own window check on it. The labels grow by four per new day while each chart's values grow by one. A later `indexOf` (:129) then points past the values, and :152 writes holes. | History d1, d2, d3, then a poll with new day d4: the labels become [d1, d2, d3, d4, d4, d4, d4] while each chart has 4 values. | One label per point, with labels and values staying paired. | high; not executed | `DashboardCharts.ChartBoard.SharedLabelsDrift` | `DashboardCharts.AppendPairedKeepsPairing` |
