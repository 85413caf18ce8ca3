/** frontEnd/src/pages/Fulfillment.jsx: the order search, the tracking-number handler and the row badges. */
module FulfillmentPage {
  import opened Wrappers
  import opened Seqs
  import opened JsRuntime

  /** A line of an order's `shortages`. */
  datatype ShortageLine = ShortageLine(materialId: int, materialName: string, needed: int, available: int, short: int)

  /** An entry of the page's `ordersData` (dates, items and totals are not modelled). */
  datatype PageOrder = PageOrder(id: string, customer: string, email: string, status: string,
                                 shortages: seq<ShortageLine>, trackingNumber: Option<string>, shippingAddress: string)

  /** The status filter's value that lets every order through. */
  const AllStatuses: string := "All"

  /** The case-insensitive search on the customer or the order id. */
  predicate MatchesSearch(o: PageOrder, term: string) {
    Includes(ToLowerCase(o.customer), ToLowerCase(term)) || Includes(ToLowerCase(o.id), ToLowerCase(term))
  }

  /** The status filter: "All", or exactly the order's status. */
  predicate MatchesStatus(o: PageOrder, statusFilter: string) {
    statusFilter == AllStatuses || o.status == statusFilter
  }

  /** `filteredOrders`. */
  function FilteredOrders(orders: seq<PageOrder>, term: string, statusFilter: string): (r: seq<PageOrder>)
    ensures forall o :: o in r <==> o in orders && MatchesSearch(o, term) && MatchesStatus(o, statusFilter)
  {
    Filter(orders, o => MatchesSearch(o, term) && MatchesStatus(o, statusFilter))
  }

  /** The filter keeps the orders' relative order; "All" with an empty search returns every order unchanged. */
  lemma FilteredOrdersOrder(a: seq<PageOrder>, b: seq<PageOrder>, term: string, statusFilter: string)
    ensures FilteredOrders(a + b, term, statusFilter) == FilteredOrders(a, term, statusFilter) + FilteredOrders(b, term, statusFilter)
    ensures term == "" && statusFilter == AllStatuses ==> FilteredOrders(a, term, statusFilter) == a
  {
    FilterAppend(a, b, o => MatchesSearch(o, term) && MatchesStatus(o, statusFilter));
    if term == "" && statusFilter == AllStatuses {
      forall o | o in a ensures MatchesSearch(o, term) && MatchesStatus(o, statusFilter) {
        IncludesEmpty(ToLowerCase(o.customer));
      }
      FilterKeepsAll(a, o => MatchesSearch(o, term) && MatchesStatus(o, statusFilter));
    }
  }

  /** The tracking form shows for a shipped order whose tracking number is null or empty (falsy). */
  predicate ShowsTrackingForm(o: PageOrder) {
    o.status == "Shipped" && (o.trackingNumber.None? || o.trackingNumber.value == "")
  }

  /** The form is offered only to shipped orders, and never to one that has a tracking number. */
  lemma TrackingFormOnlyWhenMissing(o: PageOrder)
    ensures ShowsTrackingForm(o) ==> o.status == "Shipped"
    ensures o.trackingNumber.Some? && o.trackingNumber.value != "" ==> !ShowsTrackingForm(o)
    ensures o.status == "Shipped" && o.trackingNumber.None? ==> ShowsTrackingForm(o)
  {
  }

  /** The shortage badge of an order row: absent for no shortages, otherwise the count it shows. */
  function ShortageBadge(o: PageOrder): (r: Option<nat>)
    ensures r.Some? <==> |o.shortages| > 0
    ensures r.Some? ==> r.value == |o.shortages| && r.value > 0
  {
    if |o.shortages| > 0 then Some(|o.shortages|) else None
  }

  /** The badge says "Shortages" exactly when it counts more than one. */
  function ShortageLabelSuffix(count: nat): (r: string)
    ensures r == "s" <==> count > 1
    ensures r == "" <==> count <= 1
  {
    if count > 1 then "s" else ""
  }

  /** The page's component state. */
  class Page {
    var searchTerm: string
    var statusFilter: string
    var selectedOrder: Option<PageOrder>
    var showOrderDetail: bool
    var trackingNumber: string

    /** The initial state: empty search, filter "All", nothing selected, no detail view, empty tracking input. */
    constructor ()
      ensures searchTerm == "" && statusFilter == AllStatuses && selectedOrder.None?
      ensures !showOrderDetail && trackingNumber == ""
    {
      searchTerm := "";
      statusFilter := AllStatuses;
      selectedOrder := None;
      showOrderDetail := false;
      trackingNumber := "";
    }

    /** `handleViewOrder`: select the order and open the detail view. */
    method ViewOrder(o: PageOrder)
      modifies this
      ensures selectedOrder == Some(o) && showOrderDetail
      ensures searchTerm == old(searchTerm) && statusFilter == old(statusFilter) && trackingNumber == old(trackingNumber)
    {
      selectedOrder := Some(o);
      showOrderDetail := true;
    }

    /**
     * `handleAddTracking(orderId)`: a blank or whitespace-only input changes nothing; otherwise the
     * input is cleared and the detail view closes. The order itself is not updated.
     */
    method AddTracking(orderId: string)
      modifies this
      ensures IsBlank(old(trackingNumber)) ==>
                trackingNumber == old(trackingNumber) && showOrderDetail == old(showOrderDetail)
      ensures !IsBlank(old(trackingNumber)) ==> trackingNumber == "" && !showOrderDetail
      ensures searchTerm == old(searchTerm) && statusFilter == old(statusFilter) && selectedOrder == old(selectedOrder)
    {
      TrimEmptyIffBlank(trackingNumber);
      if Trim(trackingNumber) != "" {
        trackingNumber := "";
        showOrderDetail := false;
      }
    }
  }
}
