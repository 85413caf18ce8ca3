/**
 * The backend's tables (the SQLAlchemy models), held by one `Database` object that every
 * service operation receives, as the services receive their `Session`. Each table is a map
 * from primary key to row; a service updates it in place. Prices, totals and timestamps are
 * floating-point or clock values and are not part of the rows.
 */
module Database {
  import opened Wrappers

  /** A material; `required` is a nullable column, and an update may store NULL there. */
  datatype Material = Material(id: int, name: string, color: string, quantity: int, unit: string, required: Option<int>)

  /** A product; `materials` lists the ids its `materials` relationship links to, in relationship order. */
  datatype Product = Product(id: int, name: string, sku: string, color: string, canBuild: int, materials: seq<int>)

  datatype OrderItem = OrderItem(id: int, productId: int, productName: string, quantity: int)

  /** A fulfillment order; `items` is its `items` relationship (deleted with the order); `status` is nullable. */
  datatype Order = Order(
    id: string, customer: string, email: string, status: Option<string>,
    trackingNumber: Option<string>, shippingAddress: string, items: seq<OrderItem>)

  /** A row of the material-centric order queue; `status` and `can_fulfill` are nullable. */
  datatype QueueEntry = QueueEntry(
    id: string, customer: string, email: string, status: Option<string>,
    canFulfill: Option<bool>, shortageReason: Option<string>)

  /** An integration row; `enabled` is a nullable column. */
  datatype Integration = Integration(
    id: int, name: string, displayName: string, enabled: Option<bool>,
    apiKey: Option<string>, webhookUrl: Option<string>, settings: Option<string>)

  /** A shortage record as `check_order_shortages` builds it. */
  datatype Shortage = Shortage(orderId: string, materialId: int, materialName: string, needed: int, available: int, short: int)

  class Database {
    var materials: map<int, Material>
    var products: map<int, Product>
    /** The `quantity` column of the `product_materials` association table, by (product id, material id). */
    var bomQuantity: map<(int, int), int>
    var orders: map<string, Order>
    var orderQueue: map<string, QueueEntry>
    var integrations: map<int, Integration>
    /** The id the next inserted material receives. */
    var nextMaterialId: int

    /** Every row is stored under its own primary key; integration names are unique. */
    ghost predicate Valid()
      reads this
    {
      && (forall id :: id in materials ==> materials[id].id == id && id < nextMaterialId)
      && (forall id :: id in products ==> products[id].id == id)
      && (forall id :: id in orders ==> orders[id].id == id)
      && (forall id :: id in orderQueue ==> orderQueue[id].id == id)
      && (forall id :: id in integrations ==> integrations[id].id == id)
      && (forall a, b :: a in integrations && b in integrations && integrations[a].name == integrations[b].name ==> a == b)
    }

    constructor ()
      ensures Valid()
      ensures materials == map[] && products == map[] && bomQuantity == map[]
      ensures orders == map[] && orderQueue == map[] && integrations == map[]
      ensures nextMaterialId == 1
    {
      materials, products, bomQuantity := map[], map[], map[];
      orders, orderQueue, integrations := map[], map[], map[];
      nextMaterialId := 1;
    }
  }

  /** The `materials` relationship of a product: its links resolved against the materials table, in link order. */
  function MaterialsOf(materials: map<int, Material>, links: seq<int>): (r: seq<Material>)
    ensures |r| <= |links|
  {
    if links == [] then []
    else (if links[0] in materials then [materials[links[0]]] else []) + MaterialsOf(materials, links[1..])
  }

  /** The relationship yields exactly the stored rows of the linked ids. */
  lemma {:induction false} MaterialsOfSpec(materials: map<int, Material>, links: seq<int>)
    requires forall id :: id in materials ==> materials[id].id == id
    ensures forall m :: m in MaterialsOf(materials, links) ==> m.id in links && m.id in materials && materials[m.id] == m
    ensures forall l :: l in links && l in materials ==> materials[l] in MaterialsOf(materials, links)
  {
    if links != [] {
      MaterialsOfSpec(materials, links[1..]);
      assert forall l :: l in links[1..] ==> l in links;
      assert forall l :: l in links ==> l == links[0] || l in links[1..];
    }
  }
}
