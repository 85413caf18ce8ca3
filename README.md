# Inventory and production tracker: a Dafny model

This project models the core logic of a small inventory and production tracker for a T-shirt
print shop.

- The backend is a set of Python services over a relational store. They cover materials (blank
  garments in stock), products with a bill of materials (BOM), customer orders, an order queue,
  third-party integrations, and a rule-based inventory-health analysis.
- The frontend is four React pages. Each holds sample data and component state. They compute
  buildable quantities, search and filter lists, clamp stock counters and edit a nested settings map.

## Layout

- Backend:
  - The store is one `Database` class (`database.dfy`) with one `map` field per table.
  - Every service operation that changes a table is a method with a `modifies` frame on exactly
    that table. Its `ensures` gives the new table in terms of the old one.
  - A partial update (the services' `setattr` loop over the supplied fields) is a sequence of
    field assignments. The method loops over it, and `Patched` states the result field by field.
  - Loops that compute a value are methods proved equal to a specification function. These are
    the buildable count, the shortage check, the health analysis and the consumption totals. The
    lemmas then state what that function means.
- Frontend:
  - Pure page logic is functions: `calculateCanBuild`, the searches, `updateQuantity`, and the
    settings-map transformers.
  - The three handlers that update several state variables in sequence (`handleViewOrder`,
    `handleAddTracking` and `handleSaveApiKey`) are methods of small `Page` classes.
- JavaScript semantics that matter are modelled explicitly (`js_runtime.dfy`):
  - `Math.floor(a / 0)` gives an infinity or `NaN`;
  - `Math.min` of values containing `NaN`;
  - `undefined + n`;
  - `toLowerCase`, `includes` and `trim`.
- Python's `//` is floor division, and a zero divisor raises `ZeroDivisionError`. Both are modelled
  (`Arith.FloorDiv`, `ProductsService.Raises`).
- Nullable columns without a rewrite are `Option` values: a material's `required`, the order and
  queue `status`, the queue's `can_fulfill` and an integration's `enabled`. An update that sends an
  explicit null stores NULL there, as `setattr` does. Python then reads a NULL `enabled` as false
  when toggling, and `max(quantity, None)` raises `TypeError` in the health analysis
  (`AiService.Raises`).

## The model follows the code

- There is no stock-reservation ledger and no reserve/release/commit operation. Stock changes only
  through `update_material` and the page's `+`/`-` counter.
- There is no order-status state machine:
  - `update_order` and `update_order_queue_status` store any status string;
  - the status buttons on the Materials and Fulfillment pages only log;
  - every status button is offered whatever the current status.
- `calculate_can_build` uses a `product_materials` table that `products_service.py` does not
  import, so as written it fails on any product with materials. The model gives the arithmetic it
  evidently intends. The BOM quantities are an explicit map keyed by (product id, material id).
- The backend skips a material that has no BOM row. The frontend counts a material missing from
  `materialsData` as 0.
- The sample products on the Products page show hard-coded counts (13, 27, 34). Yet each sample
  BOM names material 9, which `materialsData` lacks, so `calculateCanBuild` gives 0 for all three.
  The page never calls it.
- `check_order_shortages` uses the item quantity as the amount needed, whatever the BOM quantity.
  It neither stores shortages nor changes stock.

## Model

| member | source | states |
|---|---|---|
| Arith.FloorDivSpec | backEnd/services/products_service.py:59 | Python `//` is floor division: the quotient times a positive divisor is at most the dividend and within one divisor of it, mirrored for a negative divisor |
| ProductsService.ScanSpec | backEnd/services/products_service.py:48-60 | the material loop raises exactly when some material's BOM row has quantity 0; it keeps the infinite sentinel exactly when no material has a BOM row; otherwise it is at most every row's `available // required` and equal to one of them |
| ProductsService.CanBuildMissingOrEmpty | backEnd/services/products_service.py:43-45 | a missing product, or one with no materials, can build 0 |
| ProductsService.CanBuildNoRows | backEnd/services/products_service.py:62 | when no material has a BOM row, the infinite sentinel is reported as 0 |
| ProductsService.CanBuildIsMinimum | backEnd/services/products_service.py:48-62 | the result is at most `available // required` for every material with a BOM row, and equal to it for one of them when any exists |
| ProductsService.CanBuildRaises | backEnd/services/products_service.py:56-59 | `ZeroDivisionError` is raised exactly when a material's BOM quantity is 0 |
| ProductsService.CanBuildNonNegative | backEnd/services/products_service.py:56-62 | with non-negative stock and positive BOM quantities the result is a count of at least 0, never an error |
| ProductsService.CalculateCanBuild | backEnd/services/products_service.py:41-62 | the running-minimum loop returns exactly `CanBuildOf`, whose meaning the lemmas above state |
| ProductsService.UpdateProductCanBuild | backEnd/services/products_service.py:64-73 | returns None for an unknown id and leaves the table unchanged; otherwise sets only `can_build` of that product to the computed count; propagates the division error |
| ProductsService.Patched | backEnd/services/products_service.py:24-28 | after the update loop each supplied column holds the last value supplied for it, and every other column keeps its old value |
| Seqs.LastSpec | backEnd/services/products_service.py:25-26 | after a sequence of `setattr` calls an attribute holds a value exactly when some call set it, and then it holds the value of the last such call |
| ProductsService.PatchedTwice | backEnd/services/products_service.py:19-30 | sending the same product update twice gives the same row as sending it once |
| ProductsService.UpdateProduct | backEnd/services/products_service.py:19-30 | returns None and changes nothing for an unknown id; otherwise replaces that one row by its patched version and returns it |
| ProductsService.DeleteProduct | backEnd/services/products_service.py:32-39 | returns true exactly when the id existed; afterwards the id is gone and every other row remains |
| Database.MaterialsOfSpec | backEnd/models.py:43 | a product's materials are exactly the stored materials whose ids it links to |
| MaterialsService.CreateMaterial | backEnd/services/materials_service.py:12-21 | inserts the row under a fresh id, storing a null quantity as 0; no existing row changes |
| MaterialsService.Patched | backEnd/services/materials_service.py:28-34 | after the update loop each supplied column holds its last supplied value, with an explicit null quantity stored as 0 and an explicit null `required` stored as NULL; other columns are unchanged |
| MaterialsService.PatchedTwice | backEnd/services/materials_service.py:23-37 | sending the same material update twice gives the same row as sending it once |
| MaterialsService.UpdateMaterial | backEnd/services/materials_service.py:23-37 | returns None and changes nothing for an unknown id; otherwise replaces that one row by its patched version and returns it |
| MaterialsService.DeleteMaterial | backEnd/services/materials_service.py:39-46 | returns true exactly when the id existed; afterwards the id is gone and every other row remains |
| MaterialsService.PatchedQueue | backEnd/services/materials_service.py:67-69 | after the update loop each supplied queue column holds its last supplied value, an explicit null `status` or `can_fulfill` being stored as NULL; id, customer and email are unchanged |
| MaterialsService.PatchedQueueTwice | backEnd/services/materials_service.py:62-73 | sending the same queue update twice gives the same entry as sending it once |
| MaterialsService.UpdateOrderQueueStatus | backEnd/services/materials_service.py:62-73 | returns None and changes nothing for an unknown id; otherwise replaces that one entry by its patched version, accepting any status string |
| MaterialsService.DeleteOrderQueueItem | backEnd/services/materials_service.py:75-82 | returns true exactly when the entry existed; afterwards it is gone and every other entry remains |
| OrdersService.GetOrder | backEnd/services/orders_service.py:9-10 | finds a row exactly when the id is stored, and returns that row |
| OrdersService.Patched | backEnd/services/orders_service.py:33-37 | after the update loop each supplied order column holds its last supplied value (any status string, or NULL for an explicit null); the other columns and the items are unchanged |
| OrdersService.PatchedTwice | backEnd/services/orders_service.py:28-39 | sending the same order update twice gives the same row as sending it once |
| OrdersService.UpdateOrder | backEnd/services/orders_service.py:28-39 | returns None and changes nothing for an unknown id; otherwise replaces that one row by its patched version and returns it |
| OrdersService.DeleteOrder | backEnd/services/orders_service.py:41-48 | returns true exactly when the id existed; afterwards the id is gone and every other row remains |
| OrdersService.ItemShortagesSpec | backEnd/services/orders_service.py:64-78 | for one item, a record is emitted for a material exactly when the item quantity exceeds its stock, and it records needed = item quantity, the stock and their difference |
| OrdersService.ItemsShortagesAppend | backEnd/services/orders_service.py:58-78 | items contribute their records one after another, in item order, with nothing merged across items |
| OrdersService.ItemsShortagesSpec | backEnd/services/orders_service.py:58-78 | a record appears for an (item, material) pair exactly when the item's product links the material and the item quantity exceeds the stock; a missing product or one without materials contributes nothing |
| OrdersService.OrderShortagesArePositive | backEnd/services/orders_service.py:52-77 | an unknown order gives no records; every record belongs to the order and has `short == needed - available > 0` |
| OrdersService.ItemShortagesInOrder | backEnd/services/orders_service.py:64-78 | for one item, the k-th shortage record is for the material at an increasing position k' of the product's materials, that material is short, and every short material has a record: one record per short material, in material order |
| OrdersService.MaterialShortages | backEnd/services/orders_service.py:64-78 | the inner loop over one item's materials returns exactly `ItemShortages`, whose meaning `ItemShortagesSpec` states |
| OrdersService.CheckOrderShortages | backEnd/services/orders_service.py:50-80 | the nested loops return exactly `OrderShortages` of the current tables and write nothing |
| IntegrationsService.GetIntegrationByName | backEnd/services/integrations_service.py:12-13 | finds a row exactly when some stored integration has that name, and returns that row |
| IntegrationsService.Toggled | backEnd/services/integrations_service.py:50 | `not enabled`: the toggled row holds a boolean `enabled` whose truth is the opposite of the old value's truthiness, so a NULL becomes true; every other column is unchanged |
| IntegrationsService.ToggleTwice | backEnd/services/integrations_service.py:50 | toggling twice restores a row whose `enabled` is a boolean; a NULL `enabled` comes back as false, not NULL |
| IntegrationsService.ToggleIntegration | backEnd/services/integrations_service.py:44-53 | returns None and changes nothing for an unknown id; otherwise replaces only that row by its toggled version |
| IntegrationsService.ToggleIntegrationTwice | backEnd/services/integrations_service.py:44-53 | two toggles of the same id leave the integrations table as it was, except that a NULL `enabled` of that row ends up false |
| IntegrationsService.Patched | backEnd/services/integrations_service.py:28-29 | after the update loop each supplied integration column holds its last supplied value, an explicit null `enabled` being stored as NULL; name and display name are unchanged |
| IntegrationsService.PatchedTwice | backEnd/services/integrations_service.py:22-33 | sending the same integration update twice gives the same row as sending it once |
| IntegrationsService.UpdateIntegration | backEnd/services/integrations_service.py:22-33 | returns None and changes nothing for an unknown id; otherwise replaces that one row by its patched version and returns it |
| IntegrationsService.DeleteIntegration | backEnd/services/integrations_service.py:35-42 | returns true exactly when the id existed; afterwards the id is gone and every other row remains |
| AiService.DaysRemainingWithoutConsumption | backEnd/services/ai_service.py:85-90 | with no recent consumption the daily rate defaults to 1, so the stock lasts as many days as there are units |
| AiService.DaysRemainingMonotone | backEnd/services/ai_service.py:85-90 | under the same consumption, more stock never gives fewer days remaining |
| AiService.DaysRemaining | backEnd/services/ai_service.py:84-90 | with no consumption the estimate is the quantity; otherwise it is `30 * quantity / consumption` truncated toward zero: for non-negative stock the largest `d` with `d * consumption <= 30 * quantity`, mirrored for negative stock |
| AiService.EstimatedDays | backEnd/services/ai_service.py:30 | the service's per-material estimate, with one consumption total shared by all materials, never gives fewer days to a material with more stock |
| AiService.Health | backEnd/services/ai_service.py:28-56 | when the loop completes it counts every material; the critical and low lists together are no longer than the input, and neither is the reorder list |
| AiService.CriticalInOrder | backEnd/services/ai_service.py:28-56 | when the analysis does not raise, the critical list holds exactly one alert per material with at most 7 days left, in input order: entry k is for an increasing input position and carries that material and its estimate |
| AiService.LowInOrder | backEnd/services/ai_service.py:28-56 | when the analysis does not raise, the low-stock list holds exactly one alert per material with 8 to 14 days left, in input order, each carrying that material and its estimate |
| AiService.ReordersInOrder | backEnd/services/ai_service.py:28-56 | when the analysis does not raise, the reorder list holds exactly one recommendation per material with at most 21 days left, in input order, each carrying that material, its stock, its recommended quantity and its estimate |
| AiService.ConsumptionTotal | backEnd/services/ai_service.py:71-82 | the recent consumption is even, and it is 0 exactly when there are no recent queue entries and no recent order items |
| AiService.RecentConsumption | backEnd/services/ai_service.py:71-82 | the two accumulation loops (2 per recent order item, then 2 per recent queue entry) return exactly `ConsumptionTotal` |
| AiService.ReorderQuantity | backEnd/services/ai_service.py:94-107 | raises `TypeError` exactly when the material's `required` is NULL; otherwise the recommended quantity is at least `required` and at least the consumption-based supply, and is one of the two |
| AiService.HealthClassification | backEnd/services/ai_service.py:28-56 | the analysis raises exactly when a material with at most 21 days left has a NULL `required`. Otherwise a material is critical iff at most 7 days remain; it is low iff 8 to 14 days remain; it gets a reorder recommendation iff at most 21 days remain, for at least `required` units. Every entry records the material's own estimate and stock |
| AiService.CriticalAndLowDisjoint | backEnd/services/ai_service.py:32-45 | when the analysis succeeds, no entry is both critical and low |
| AiService.UrgencyFollowsStock | backEnd/services/ai_service.py:28-56 | with the service's shared consumption estimate and a successful analysis, a material with no more stock than a critical one is critical too; likewise for reorder recommendations |
| AiService.AnalyzeInventoryHealth | backEnd/services/ai_service.py:17-64 | the loop appending to the three lists returns exactly `Health`, including its `TypeError` |
| AiService.SortByPrioritySorted | backEnd/services/ai_service.py:214 | the sort returns a permutation of the alerts ordered by priority |
| AiService.SortSorted | backEnd/services/ai_service.py:214 | a stable sort leaves an already ordered list unchanged |
| AiService.Insert | backEnd/services/ai_service.py:215 | the stable insertion step adds exactly the one alert to the list's multiset |
| AiService.SortByPriority | backEnd/services/ai_service.py:215 | the sort returns a permutation of its input |
| AiService.AlertPriorities | backEnd/services/ai_service.py:169-212 | critical, low and reorder alerts carry priority 1, 2 and 3 and the matching type |
| AiService.AlertsMirrorEntries | backEnd/services/ai_service.py:169-212 | each of the three loops gives one alert per entry, in entry order: critical alerts carry priority 1, low-stock alerts 2 and reorder alerts 3, each with the entry's material, quantity and estimate or recommendation |
| AiService.Unsorted | backEnd/services/ai_service.py:167-212 | the list before sorting holds the critical alerts, then the low-stock alerts, then the reorder alerts, one per entry and in entry order |
| AiService.UnsortedIsSorted | backEnd/services/ai_service.py:167-212 | critical, then low, then reorder alerts appended in that order are already in priority order |
| AiService.GetSmartAlerts | backEnd/services/ai_service.py:164-216 | raises exactly when the analysis raises; otherwise returns the appended alerts after the sort, which is ordered by priority and equals the appended order. So within a priority, materials keep the analysis order, and there are as many alerts as entries |
| ProductsPage.Find | frontEnd/src/pages/Products.jsx:111 | `find` returns a listed material with the requested id, or nothing exactly when no listed material has it |
| ProductsPage.FindIsFirst | frontEnd/src/pages/Products.jsx:111 | the material found is the first one with that id: no earlier material has it |
| ProductsPage.CalculateCanBuild | frontEnd/src/pages/Products.jsx:107-114 | a null or empty BOM gives 0; otherwise the result is `NaN` exactly when some line's value is, and else it is the smallest line value, each line giving `Math.floor(stock / need)` or 0 for an unlisted material |
| JsRuntime.FloorOfQuotient | frontEnd/src/pages/Products.jsx:112 | `Math.floor(a / b)` is the floor quotient for a non-zero `b`; dividing by 0 gives +Infinity, -Infinity or `NaN` by the sign of `a` |
| JsRuntime.MathMin | frontEnd/src/pages/Products.jsx:110 | `Math.min` is `NaN` exactly when an argument is; otherwise it is an argument no greater than any other, and +Infinity for no arguments |
| JsRuntime.ToLowerCase | frontEnd/src/pages/Products.jsx:103-104 | lower-casing keeps the length, maps each character on its own and leaves no upper-case ASCII letter |
| JsRuntime.IncludesIff | frontEnd/src/pages/Products.jsx:103-104 | `includes` holds exactly when the term occurs at some position of the string |
| JsRuntime.TrimEmptyIffBlank | frontEnd/src/pages/Fulfillment.jsx:122 | `trim()` gives the empty (falsy) string exactly when every character is whitespace |
| ProductsPage.CanBuildEmptyBom | frontEnd/src/pages/Products.jsx:108 | a null or empty BOM gives 0 |
| ProductsPage.CanBuildIsMinimum | frontEnd/src/pages/Products.jsx:107-114 | when every line's material is listed and needed in positive quantity, the result is finite, at most `floor(stock / need)` for every line and equal to it for one line |
| ProductsPage.CanBuildUnknownMaterial | frontEnd/src/pages/Products.jsx:110-113 | a line whose material is not listed makes any finite result at most 0, and the result is exactly 0 when stocks are non-negative and needs positive |
| ProductsPage.SampleProductsBuildNothing | frontEnd/src/pages/Products.jsx:39-88 | every sample product computes to 0 buildable units although its hard-coded count is positive |
| ProductsPage.FilteredProducts | frontEnd/src/pages/Products.jsx:102-105 | a product is kept iff its lower-cased name or SKU contains the lower-cased term |
| ProductsPage.FilteredProductsOrder | frontEnd/src/pages/Products.jsx:102-105 | the search keeps the products' order, and an empty term keeps every product |
| MaterialsPage.InitialQuantities | frontEnd/src/pages/Materials.jsx:120-122 | the initial counter map has exactly the inventory ids as keys |
| MaterialsPage.InitialQuantitiesValues | frontEnd/src/pages/Materials.jsx:121 | each id maps to the quantity of the last item carrying it |
| MaterialsPage.InitialQuantitiesDistinct | frontEnd/src/pages/Materials.jsx:120-122 | with distinct ids every item starts at its own quantity |
| MaterialsPage.InitialQuantitiesDisplayable | frontEnd/src/pages/Materials.jsx:120-122 | non-negative item quantities give finite, non-negative counters |
| MaterialsPage.InitialPageQuantities | frontEnd/src/pages/Materials.jsx:52-122 | the sample inventory starts with every item showing its own quantity, all finite and non-negative |
| MaterialsPage.UpdateQuantity | frontEnd/src/pages/Materials.jsx:138-143 | the update writes only the given id: every other counter keeps its value |
| MaterialsPage.UpdateQuantityClamps | frontEnd/src/pages/Materials.jsx:141 | for a displayed counter the new value is `max(0, old + change)` |
| MaterialsPage.UpdateQuantityKeepsDisplayable | frontEnd/src/pages/Materials.jsx:138-143 | updating a listed id keeps every counter finite and never negative |
| MaterialsPage.UpdateQuantityUnknownId | frontEnd/src/pages/Materials.jsx:141 | an id without a counter becomes `NaN` (`undefined + change`) |
| MaterialsPage.IncrementThenDecrement | frontEnd/src/pages/Materials.jsx:138-143 | `+1` followed by `-1` restores any displayed counter |
| MaterialsPage.DecrementAtZero | frontEnd/src/pages/Materials.jsx:138-143 | `-1` on a counter at 0 leaves the map unchanged |
| MaterialsPage.FilteredData | frontEnd/src/pages/Materials.jsx:145 | an item is kept iff its lower-cased name contains the lower-cased term |
| MaterialsPage.FilteredDataOrder | frontEnd/src/pages/Materials.jsx:145 | the inventory search keeps the items' order |
| MaterialsPage.FilteredOrders | frontEnd/src/pages/Materials.jsx:146-149 | a queued order is kept iff its customer or id contains the term, ignoring case |
| MaterialsPage.FilteredOrdersOrder | frontEnd/src/pages/Materials.jsx:146-149 | the queue search keeps the orders' order |
| MaterialsPage.HandleStatusChange | frontEnd/src/pages/Materials.jsx:165-168 | the status handler leaves the order data as it was |
| MaterialsPage.StatusButtons | frontEnd/src/pages/Materials.jsx:454-457 | each order row offers one button per status, in declaration order, highlighting the one equal to the order's status |
| MaterialsPage.StatusButtonsOfferAll | frontEnd/src/pages/Materials.jsx:454-465 | every status is offered whatever the current status, and at most one button is highlighted |
| FulfillmentPage.FilteredOrders | frontEnd/src/pages/Fulfillment.jsx:109-114 | an order is kept iff its customer or id matches the term ignoring case, and the filter is "All" or equals its status |
| FulfillmentPage.FilteredOrdersOrder | frontEnd/src/pages/Fulfillment.jsx:109-114 | the filter keeps the orders' order; "All" with an empty search returns every order unchanged |
| FulfillmentPage.TrackingFormOnlyWhenMissing | frontEnd/src/pages/Fulfillment.jsx:360 | the tracking form appears only for shipped orders, never for one with a tracking number, and always for a shipped order with none |
| FulfillmentPage.ShortageBadge | frontEnd/src/pages/Fulfillment.jsx:227-230 | the badge appears iff the order has shortages, and it shows their number |
| FulfillmentPage.ShortageLabelSuffix | frontEnd/src/pages/Fulfillment.jsx:230 | the label is plural exactly when it counts more than one shortage |
| FulfillmentPage.Page.constructor | frontEnd/src/pages/Fulfillment.jsx:103-107 | the page starts with an empty search, filter "All", no selection, no detail view and an empty tracking input |
| FulfillmentPage.Page.ViewOrder | frontEnd/src/pages/Fulfillment.jsx:130-133 | viewing an order selects it and opens the detail view, leaving the search, filter and input alone |
| FulfillmentPage.Page.AddTracking | frontEnd/src/pages/Fulfillment.jsx:121-128 | a blank or whitespace-only input changes nothing; otherwise the input is cleared and the detail view closes; the search, filter and selection never change |
| IntegrationsPage.ToggleIntegration | frontEnd/src/pages/Integrations.jsx:93-101 | an unknown category throws (None); otherwise the field becomes the negation of its truthiness, and the key sets grow by at most that field |
| IntegrationsPage.ToggleChangesOnlyField | frontEnd/src/pages/Integrations.jsx:94-100 | a toggle leaves every other category, and every other field of its category, unchanged |
| IntegrationsPage.ToggleTwice | frontEnd/src/pages/Integrations.jsx:98 | toggling a boolean field twice restores the settings |
| IntegrationsPage.ToggleTwiceNotString | frontEnd/src/pages/Integrations.jsx:98 | a missing or string-valued field does not come back after two toggles: it ends up boolean |
| IntegrationsPage.UpdateIntegration | frontEnd/src/pages/Integrations.jsx:103-111 | the field holds the new value; the categories and the category's fields grow by at most that one; an unknown category is created holding only that field |
| IntegrationsPage.UpdateIntegrationFrame | frontEnd/src/pages/Integrations.jsx:103-111 | an update leaves every other category and field unchanged, and applying it twice equals applying it once |
| IntegrationsPage.UpdateWithCurrentValue | frontEnd/src/pages/Integrations.jsx:103-111 | writing a field's current value back leaves the settings unchanged |
| IntegrationsPage.InitialEnabledSwitches | frontEnd/src/pages/Integrations.jsx:48-87 | every initial category has a boolean `enabled` switch, so toggling a card twice restores the initial settings |
| IntegrationsPage.Page.SaveApiKey | frontEnd/src/pages/Integrations.jsx:113-120 | with no selected integration or an empty key nothing changes; otherwise the key is stored as that integration's `apiKey`, the modal closes, and the key and the selection are cleared |

## Left out

- Floating-point values are not modelled: product prices, order and queue totals and order-item
  prices.
- The consumption arithmetic of `ai_service.py` is modelled with integers:
  - `_calculate_days_remaining` is the exact quotient `30 * quantity / consumption`, truncated
    toward zero. Rounding of the float division `quantity / (consumption / 30)` is not captured.
  - Its `999` branch is unreachable, because the daily rate is never 0.
- AiService.Health: takes the days-remaining estimate as a function of the material, and
  `EstimatedDays` supplies the service's own estimate. The reorder quantity's consumption-based
  supply is an integer parameter, because `int(daily * 30)` is float arithmetic.
- The clock is not modelled: the 30-day window of recent orders and queue entries, and every
  timestamp. `RecentConsumption` receives the per-order item counts and the queue-entry count
  already restricted to that window.
- Titles, messages, the alert id string and other formatted text are not modelled.
- `generate_procurement_insights` calls an external chat-completion service and is not modelled.
- The listing queries (`get_materials`, `get_products`, `get_orders`, `get_order_queue`,
  `get_integrations`, with offset/limit) and the `get_*` lookups other than `get_order` and
  `get_integration_by_name` are plain reads and are not modelled.
- These operations only insert a row: `create_product`, `create_order` (with its items),
  `create_order_queue_item`, `create_integration` and `create_shortage`. Only `create_material` is
  modelled, because it has a rule (null quantity becomes 0).
- Database constraints that raise errors are not modelled. These are SKU uniqueness, non-null
  columns that an update sets to null, and foreign keys. Commit and refresh are not modelled.
- Only text and numeric columns are modelled; dates and the order's expected delivery are not.
- `ToLowerCase` folds ASCII letters only; JavaScript lower-cases all of Unicode.
- AiService.SortByPriority: the in-place `list.sort` is modelled on values as a stable insertion
  sort.
- MaterialsPage.UpdateQuantity: covers a missing id (`NaN`). The page only calls it for listed ids.
- React rendering, styling, icons and modals are not modelled. The add-material, create-order
  and add-product handlers only log and reset their forms, and are not modelled.
- `handleStatusChange` on the Fulfillment page only logs, exactly as on the Materials page. It is
  not modelled separately.
- Sample orders on the Materials and Fulfillment pages are not reproduced as constants. The
  filters are stated for every list.
