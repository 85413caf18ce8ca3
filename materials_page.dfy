/** frontEnd/src/pages/Materials.jsx: the stock counters, the searches and the status buttons. */
module MaterialsPage {
  import opened Wrappers
  import opened Seqs
  import opened JsRuntime

  /** An entry of the page's `inventoryData`. */
  datatype InventoryItem = InventoryItem(id: int, name: string, color: string, quantity: int, unit: string, required: int)

  /** An entry of the page's `orderQueueData` (dates, items and totals are not modelled). */
  datatype QueuedOrder = QueuedOrder(id: string, customer: string, email: string, status: string, canFulfill: bool, shortage: Option<string>)

  /** The `quantities` state: material id to displayed stock. */
  type Quantities = map<int, JsNumber>

  /** The initial `quantities`: `reduce` that writes each item's quantity under its id, later items winning. */
  function InitialQuantities(items: seq<InventoryItem>): (r: Quantities)
    ensures r.Keys == set i | i in items :: i.id
  {
    if items == [] then map[]
    else
      var last := items[|items| - 1];
      InitialQuantities(items[..|items| - 1])[last.id := Finite(last.quantity)]
  }

  /** Each key of the initial map holds the quantity of the last item carrying that id. */
  lemma {:induction false} InitialQuantitiesValues(items: seq<InventoryItem>, k: int)
    requires k < |items|
    requires 0 <= k && forall j :: k < j < |items| ==> items[j].id != items[k].id
    ensures InitialQuantities(items)[items[k].id] == Finite(items[k].quantity)
  {
    if k < |items| - 1 {
      InitialQuantitiesValues(items[..|items| - 1], k);
    }
  }

  /** With distinct ids, every item's own quantity is what the map starts with. */
  lemma InitialQuantitiesDistinct(items: seq<InventoryItem>)
    requires forall i, j :: 0 <= i < j < |items| ==> items[i].id != items[j].id
    ensures forall i :: 0 <= i < |items| ==> InitialQuantities(items)[items[i].id] == Finite(items[i].quantity)
  {
    forall i | 0 <= i < |items| ensures InitialQuantities(items)[items[i].id] == Finite(items[i].quantity) {
      InitialQuantitiesValues(items, i);
    }
  }

  /** Items with non-negative quantities give a map of displayable stocks. */
  lemma {:induction false} InitialQuantitiesDisplayable(items: seq<InventoryItem>)
    requires forall i :: 0 <= i < |items| ==> items[i].quantity >= 0
    ensures Displayable(InitialQuantities(items))
  {
    if items != [] {
      InitialQuantitiesDisplayable(items[..|items| - 1]);
    }
  }

  /** The page's sample `inventoryData`. */
  const InventoryData: seq<InventoryItem> := [
    InventoryItem(1, "Gildan T-Shirt - Red / M", "red", 13, "24 PCS", 24),
    InventoryItem(2, "Gildan T-Shirt - Red / L", "red", 46, "24 PCS", 24),
    InventoryItem(3, "Gildan T-Shirt - Black / S", "black", 21, "24 PCS", 24),
    InventoryItem(4, "Gildan T-Shirt - Black / M", "black", 34, "24 PCS", 24),
    InventoryItem(5, "Gildan T-Shirt - Black / L", "black", 27, "24 PCS", 24),
    InventoryItem(6, "Gildan T-Shirt - White / S", "white", 34, "24 PCS", 24),
    InventoryItem(7, "Gildan T-Shirt - White / M", "white", 51, "24 PCS", 24),
    InventoryItem(8, "Gildan T-Shirt - White / L", "white", 29, "24 PCS", 24)
  ]

  /** The page starts with every sample item showing its own quantity. */
  lemma InitialPageQuantities()
    ensures forall i :: 0 <= i < |InventoryData| ==> InitialQuantities(InventoryData)[InventoryData[i].id] == Finite(InventoryData[i].quantity)
    ensures Displayable(InitialQuantities(InventoryData))
  {
    forall i | 0 <= i < |InventoryData| ensures InventoryData[i].id == i + 1 && InventoryData[i].quantity >= 0 {
    }
    InitialQuantitiesDistinct(InventoryData);
    InitialQuantitiesDisplayable(InventoryData);
  }

  /** `prev[id]`: a missing key reads as `undefined`, which turns the sum into `NaN`. */
  function Lookup(q: Quantities, id: int): JsNumber {
    if id in q then q[id] else NaN
  }

  /** `updateQuantity(id, change)`: `Math.max(0, prev[id] + change)` under `id`; every other key kept. */
  function UpdateQuantity(q: Quantities, id: int, change: int): (r: Quantities)
    ensures r.Keys == q.Keys + {id}
    ensures forall k :: k in q && k != id ==> r[k] == q[k]
  {
    q[id := Max2(Finite(0), AddInt(Lookup(q, id), change))]
  }

  /** Every displayed stock is a finite, non-negative count. */
  ghost predicate Displayable(q: Quantities) {
    forall k :: k in q ==> q[k].Finite? && q[k].n >= 0
  }

  /** Applied to a displayed stock, the update gives exactly `max(0, stock + change)`. */
  lemma UpdateQuantityClamps(q: Quantities, id: int, change: int)
    requires id in q && q[id].Finite?
    ensures UpdateQuantity(q, id, change)[id] == Finite(if q[id].n + change > 0 then q[id].n + change else 0)
  {
  }

  /** Updating a listed id keeps every stock finite and non-negative. */
  lemma UpdateQuantityKeepsDisplayable(q: Quantities, id: int, change: int)
    requires Displayable(q) && id in q
    ensures Displayable(UpdateQuantity(q, id, change))
  {
    UpdateQuantityClamps(q, id, change);
  }

  /** An id with no entry ends up as `NaN`. */
  lemma UpdateQuantityUnknownId(q: Quantities, id: int, change: int)
    requires id !in q
    ensures UpdateQuantity(q, id, change)[id] == NaN
  {
  }

  /** The `+` button followed by the `-` button restores a displayed stock. */
  lemma IncrementThenDecrement(q: Quantities, id: int)
    requires Displayable(q) && id in q
    ensures UpdateQuantity(UpdateQuantity(q, id, 1), id, -1) == q
  {
    UpdateQuantityClamps(q, id, 1);
    var q1 := UpdateQuantity(q, id, 1);
    UpdateQuantityClamps(q1, id, -1);
    assert UpdateQuantity(q1, id, -1) == q;
  }

  /** The `-` button on an empty stock leaves it at 0. */
  lemma DecrementAtZero(q: Quantities, id: int)
    requires id in q && q[id] == Finite(0)
    ensures UpdateQuantity(q, id, -1) == q
  {
    UpdateQuantityClamps(q, id, -1);
  }

  /** The inventory search predicate: the lower-cased name contains the lower-cased term. */
  predicate ItemMatches(i: InventoryItem, term: string) {
    Includes(ToLowerCase(i.name), ToLowerCase(term))
  }

  /** `filteredData`: the items whose name matches the search. */
  function FilteredData(items: seq<InventoryItem>, term: string): (r: seq<InventoryItem>)
    ensures forall i :: i in r <==> i in items && ItemMatches(i, term)
  {
    Filter(items, i => ItemMatches(i, term))
  }

  /** `filteredData` keeps the items' order. */
  lemma FilteredDataOrder(a: seq<InventoryItem>, b: seq<InventoryItem>, term: string)
    ensures FilteredData(a + b, term) == FilteredData(a, term) + FilteredData(b, term)
  {
    FilterAppend(a, b, i => ItemMatches(i, term));
  }

  /** The queue search predicate: the customer or the order id contains the term, ignoring case. */
  predicate OrderMatches(o: QueuedOrder, term: string) {
    Includes(ToLowerCase(o.customer), ToLowerCase(term)) || Includes(ToLowerCase(o.id), ToLowerCase(term))
  }

  /** `filteredOrders` of the order-queue tab. */
  function FilteredOrders(orders: seq<QueuedOrder>, term: string): (r: seq<QueuedOrder>)
    ensures forall o :: o in r <==> o in orders && OrderMatches(o, term)
  {
    Filter(orders, o => OrderMatches(o, term))
  }

  /** `filteredOrders` keeps the queue's order. */
  lemma FilteredOrdersOrder(a: seq<QueuedOrder>, b: seq<QueuedOrder>, term: string)
    ensures FilteredOrders(a + b, term) == FilteredOrders(a, term) + FilteredOrders(b, term)
  {
    FilterAppend(a, b, o => OrderMatches(o, term));
  }

  /** The keys of `statusColors`, in declaration order. */
  const Statuses: seq<string> := ["Queued", "Reserved", "In Progress", "Shipped", "Fulfilled", "Cancelled"]

  /** `handleStatusChange(orderId, newStatus)` only logs: the order data it is given comes back as it was. */
  function HandleStatusChange(orders: seq<QueuedOrder>, orderId: string, newStatus: string): (r: seq<QueuedOrder>)
    ensures r == orders
  {
    orders
  }

  /** The status buttons of one order row: every status, each flagged as highlighted when it is the current one. */
  function StatusButtons(o: QueuedOrder): (r: seq<(string, bool)>)
    ensures |r| == |Statuses|
    ensures forall i :: 0 <= i < |r| ==> r[i].0 == Statuses[i] && (r[i].1 <==> o.status == Statuses[i])
  {
    seq(|Statuses|, i requires 0 <= i < |Statuses| => (Statuses[i], o.status == Statuses[i]))
  }

  /** Every status is offered whatever the current one, and at most one button is highlighted. */
  lemma StatusButtonsOfferAll(o: QueuedOrder)
    ensures forall s :: s in Statuses ==> (s, o.status == s) in StatusButtons(o)
    ensures forall i, j :: 0 <= i < j < |Statuses| && StatusButtons(o)[i].1 ==> !StatusButtons(o)[j].1
  {
    var b := StatusButtons(o);
    forall s | s in Statuses ensures (s, o.status == s) in b {
      var i :| 0 <= i < |Statuses| && Statuses[i] == s;
      assert b[i] == (s, o.status == s);
    }
  }
}
