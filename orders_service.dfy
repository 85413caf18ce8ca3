/** backEnd/services/orders_service.py: order rows and per-order shortage detection. */
module OrdersService {
  import opened Wrappers
  import opened Seqs
  import opened Database

  /** `get_order`: the row stored under `id`, or `None`. */
  method GetOrder(db: Database, id: string) returns (r: Option<Order>)
    ensures r.Some? <==> id in db.orders
    ensures r.Some? ==> r.value == db.orders[id]
  {
    r := if id in db.orders then Some(db.orders[id]) else None;
  }

  /** One supplied field of an `OrderUpdate`; `status` may be any string, or an explicit null stored as NULL. */
  datatype OrderField =
    | SetStatus(status: Option<string>)
    | SetTrackingNumber(trackingNumber: Option<string>)
    | SetShippingAddress(shippingAddress: string)

  function StatusOf(f: OrderField): Option<Option<string>> { if f.SetStatus? then Some(f.status) else None }
  function TrackingNumberOf(f: OrderField): Option<Option<string>> { if f.SetTrackingNumber? then Some(f.trackingNumber) else None }
  function ShippingAddressOf(f: OrderField): Option<string> { if f.SetShippingAddress? then Some(f.shippingAddress) else None }

  function Assign(o: Order, f: OrderField): Order {
    match f
    case SetStatus(v) => o.(status := v)
    case SetTrackingNumber(v) => o.(trackingNumber := v)
    case SetShippingAddress(v) => o.(shippingAddress := v)
  }

  /** The order after the update loop: supplied columns take their last value, the rest (items included) keep theirs. */
  function Patched(o: Order, patch: seq<OrderField>): (r: Order)
    ensures r.id == o.id && r.customer == o.customer && r.email == o.email && r.items == o.items
    ensures r.status == Last(patch, StatusOf).GetOr(o.status)
    ensures r.trackingNumber == Last(patch, TrackingNumberOf).GetOr(o.trackingNumber)
    ensures r.shippingAddress == Last(patch, ShippingAddressOf).GetOr(o.shippingAddress)
  {
    if patch == [] then o else Assign(Patched(o, patch[..|patch| - 1]), patch[|patch| - 1])
  }

  /** Sending the same update twice leaves the row as sending it once. */
  lemma PatchedTwice(o: Order, patch: seq<OrderField>)
    ensures Patched(Patched(o, patch), patch) == Patched(o, patch)
  {
  }

  /** `update_order`: `None` for an unknown id; otherwise applies the supplied fields in place. */
  method UpdateOrder(db: Database, id: string, patch: seq<OrderField>) returns (r: Option<Order>)
    requires db.Valid()
    modifies db`orders
    ensures db.Valid()
    ensures id !in old(db.orders) ==> r == None && db.orders == old(db.orders)
    ensures id in old(db.orders) ==>
      && db.orders == old(db.orders)[id := Patched(old(db.orders)[id], patch)]
      && r == Some(db.orders[id])
  {
    if id !in db.orders {
      return None;
    }
    var i := 0;
    while i < |patch|
      invariant 0 <= i <= |patch|
      invariant db.orders == old(db.orders)[id := Patched(old(db.orders)[id], patch[..i])]
    {
      assert patch[..i + 1][..i] == patch[..i];
      db.orders := db.orders[id := Assign(db.orders[id], patch[i])];
      i := i + 1;
    }
    assert patch[..i] == patch;
    r := Some(db.orders[id]);
  }

  /** `delete_order`: `false` for an unknown id; otherwise the order, with its items, is gone. */
  method DeleteOrder(db: Database, id: string) returns (deleted: bool)
    requires db.Valid()
    modifies db`orders
    ensures db.Valid()
    ensures deleted <==> id in old(db.orders)
    ensures db.orders == old(db.orders) - {id}
  {
    if id !in db.orders {
      return false;
    }
    db.orders := db.orders - {id};
    deleted := true;
  }

  // ---------------------------------------------------------------- shortages

  /** The record emitted for an item short of a material: one unit of the material per unit ordered. */
  function ShortageFor(orderId: string, item: OrderItem, m: Material): Shortage {
    Shortage(orderId, m.id, m.name, item.quantity, m.quantity, item.quantity - m.quantity)
  }

  /** The inner loop: one record per material of the item's product whose stock is below the item quantity. */
  function ItemShortages(orderId: string, item: OrderItem, mats: seq<Material>): seq<Shortage> {
    if mats == [] then []
    else
      var m := mats[|mats| - 1];
      ItemShortages(orderId, item, mats[..|mats| - 1]) + (if item.quantity > m.quantity then [ShortageFor(orderId, item, m)] else [])
  }

  /** The materials an item's product links to; none when the product is missing. */
  function ProductMaterials(products: map<int, Product>, materials: map<int, Material>, item: OrderItem): seq<Material> {
    if item.productId in products then MaterialsOf(materials, products[item.productId].materials) else []
  }

  /** The outer loop over the items of an order. */
  function ItemsShortages(products: map<int, Product>, materials: map<int, Material>, orderId: string, items: seq<OrderItem>): seq<Shortage> {
    if items == [] then []
    else
      var item := items[|items| - 1];
      ItemsShortages(products, materials, orderId, items[..|items| - 1])
        + ItemShortages(orderId, item, ProductMaterials(products, materials, item))
  }

  /** `check_order_shortages` as a function of the tables. */
  function OrderShortages(orders: map<string, Order>, products: map<int, Product>, materials: map<int, Material>, orderId: string): seq<Shortage> {
    if orderId !in orders then [] else ItemsShortages(products, materials, orderId, orders[orderId].items)
  }

  /**
   * For one item: a record is emitted for a material exactly when the item quantity exceeds its
   * stock, it carries `needed` = item quantity, `available` = stock and `short` = their difference.
   */
  lemma {:induction false} ItemShortagesSpec(orderId: string, item: OrderItem, mats: seq<Material>)
    ensures |ItemShortages(orderId, item, mats)| <= |mats|
    ensures forall s :: s in ItemShortages(orderId, item, mats) ==>
              exists m :: m in mats && item.quantity > m.quantity && s == ShortageFor(orderId, item, m)
    ensures forall m :: m in mats && item.quantity > m.quantity ==> ShortageFor(orderId, item, m) in ItemShortages(orderId, item, mats)
  {
    if mats != [] {
      var p := mats[..|mats| - 1];
      ItemShortagesSpec(orderId, item, p);
      assert forall m :: m in mats ==> m in p || m == mats[|mats| - 1];
      assert forall m :: m in p ==> m in mats;
    }
  }

  /**
   * The inner loop emits one record per short material, in material order: the k-th record is for
   * the material at position `idx[k]`, the positions increase, and every short material has one.
   */
  lemma {:induction false} ItemShortagesInOrder(orderId: string, item: OrderItem, mats: seq<Material>) returns (idx: seq<int>)
    ensures |idx| == |ItemShortages(orderId, item, mats)|
    ensures IncreasingIndices(idx, |mats|)
    ensures forall k :: 0 <= k < |idx| ==>
              item.quantity > mats[idx[k]].quantity && ItemShortages(orderId, item, mats)[k] == ShortageFor(orderId, item, mats[idx[k]])
    ensures forall j :: 0 <= j < |mats| && item.quantity > mats[j].quantity ==> j in idx
  {
    if mats == [] {
      idx := [];
    } else {
      var p := mats[..|mats| - 1];
      var pi := ItemShortagesInOrder(orderId, item, p);
      idx := if item.quantity > mats[|mats| - 1].quantity then pi + [|mats| - 1] else pi;
    }
  }

  /** The outer loop's last step on `a + b`: the records of `a + b` without its last item, then that item's. */
  lemma ItemsShortagesLast(products: map<int, Product>, materials: map<int, Material>, orderId: string, a: seq<OrderItem>, b: seq<OrderItem>)
    requires b != []
    ensures ItemsShortages(products, materials, orderId, a + b)
            == ItemsShortages(products, materials, orderId, a + b[..|b| - 1])
               + ItemShortages(orderId, b[|b| - 1], ProductMaterials(products, materials, b[|b| - 1]))
  {
    assert (a + b)[..|a + b| - 1] == a + b[..|b| - 1];
  }

  /** Items contribute their records one after another: nothing is merged across items. */
  lemma {:induction false} ItemsShortagesAppend(products: map<int, Product>, materials: map<int, Material>, orderId: string, a: seq<OrderItem>, b: seq<OrderItem>)
    ensures ItemsShortages(products, materials, orderId, a + b)
            == ItemsShortages(products, materials, orderId, a) + ItemsShortages(products, materials, orderId, b)
    decreases |b|
  {
    if b == [] {
      assert a + b == a;
    } else {
      ItemsShortagesAppend(products, materials, orderId, a, b[..|b| - 1]);
      ItemsShortagesLast(products, materials, orderId, a, b);
      AppendAssociative(ItemsShortages(products, materials, orderId, a), ItemsShortages(products, materials, orderId, b[..|b| - 1]),
                        ItemShortages(orderId, b[|b| - 1], ProductMaterials(products, materials, b[|b| - 1])));
    }
  }

  /** Every record of the outer loop comes from some item and one of its product's materials that is short. */
  lemma {:induction false} ItemsShortagesSound(products: map<int, Product>, materials: map<int, Material>, orderId: string, items: seq<OrderItem>)
    ensures forall s :: s in ItemsShortages(products, materials, orderId, items) ==>
              exists i, m :: 0 <= i < |items| && m in ProductMaterials(products, materials, items[i])
                && items[i].quantity > m.quantity && s == ShortageFor(orderId, items[i], m)
  {
    if items != [] {
      var p, last := items[..|items| - 1], items[|items| - 1];
      var mats := ProductMaterials(products, materials, last);
      var before, tail := ItemsShortages(products, materials, orderId, p), ItemShortages(orderId, last, mats);
      ItemsShortagesSound(products, materials, orderId, p);
      ItemShortagesSpec(orderId, last, mats);
      forall s | s in before + tail
        ensures exists i, m :: 0 <= i < |items| && m in ProductMaterials(products, materials, items[i])
                  && items[i].quantity > m.quantity && s == ShortageFor(orderId, items[i], m)
      {
        if s in before {
          var i, m :| 0 <= i < |p| && m in ProductMaterials(products, materials, p[i]) && p[i].quantity > m.quantity && s == ShortageFor(orderId, p[i], m);
          assert items[i] == p[i];
        } else {
          var m :| m in mats && last.quantity > m.quantity && s == ShortageFor(orderId, last, m);
          assert items[|items| - 1] == last;
        }
      }
    }
  }

  /** Every short (item, material) pair yields a record of the outer loop. */
  lemma {:induction false} ItemsShortagesComplete(products: map<int, Product>, materials: map<int, Material>, orderId: string, items: seq<OrderItem>)
    ensures forall i, m :: 0 <= i < |items| && m in ProductMaterials(products, materials, items[i]) && items[i].quantity > m.quantity ==>
              ShortageFor(orderId, items[i], m) in ItemsShortages(products, materials, orderId, items)
  {
    if items != [] {
      var p, last := items[..|items| - 1], items[|items| - 1];
      var mats := ProductMaterials(products, materials, last);
      var before, tail := ItemsShortages(products, materials, orderId, p), ItemShortages(orderId, last, mats);
      ItemsShortagesComplete(products, materials, orderId, p);
      ItemShortagesSpec(orderId, last, mats);
      forall i, m | 0 <= i < |items| && m in ProductMaterials(products, materials, items[i]) && items[i].quantity > m.quantity
        ensures ShortageFor(orderId, items[i], m) in before + tail
      {
        if i < |p| {
          assert items[i] == p[i];
        }
      }
    }
  }

  /** A shortage is emitted for an (item, material) pair exactly when the item quantity exceeds the stock. */
  lemma ItemsShortagesSpec(products: map<int, Product>, materials: map<int, Material>, orderId: string, items: seq<OrderItem>)
    ensures forall s :: s in ItemsShortages(products, materials, orderId, items) ==>
              exists i, m :: 0 <= i < |items| && m in ProductMaterials(products, materials, items[i])
                && items[i].quantity > m.quantity && s == ShortageFor(orderId, items[i], m)
    ensures forall i, m :: 0 <= i < |items| && m in ProductMaterials(products, materials, items[i]) && items[i].quantity > m.quantity ==>
              ShortageFor(orderId, items[i], m) in ItemsShortages(products, materials, orderId, items)
  {
    ItemsShortagesSound(products, materials, orderId, items);
    ItemsShortagesComplete(products, materials, orderId, items);
  }

  /** Every record `check_order_shortages` returns is a real deficit: `short == needed - available > 0`. */
  lemma OrderShortagesArePositive(orders: map<string, Order>, products: map<int, Product>, materials: map<int, Material>, orderId: string)
    ensures forall s :: s in OrderShortages(orders, products, materials, orderId) ==>
              s.orderId == orderId && s.short == s.needed - s.available && s.short > 0
    ensures orderId !in orders ==> OrderShortages(orders, products, materials, orderId) == []
  {
    if orderId in orders {
      ItemsShortagesSpec(products, materials, orderId, orders[orderId].items);
    }
  }

  /** One more material of the inner loop appends its record when the item is short of it. */
  lemma ItemShortagesStep(orderId: string, item: OrderItem, mats: seq<Material>, j: int)
    requires 0 <= j < |mats|
    ensures item.quantity > mats[j].quantity ==>
              ItemShortages(orderId, item, mats[..j + 1]) == ItemShortages(orderId, item, mats[..j]) + [ShortageFor(orderId, item, mats[j])]
    ensures item.quantity <= mats[j].quantity ==>
              ItemShortages(orderId, item, mats[..j + 1]) == ItemShortages(orderId, item, mats[..j])
  {
    assert mats[..j + 1][..j] == mats[..j];
  }

  /** One more item of the outer loop appends its records. */
  lemma ItemsShortagesStep(products: map<int, Product>, materials: map<int, Material>, orderId: string, items: seq<OrderItem>, i: int)
    requires 0 <= i < |items|
    ensures ItemsShortages(products, materials, orderId, items[..i + 1])
            == ItemsShortages(products, materials, orderId, items[..i]) + ItemShortages(orderId, items[i], ProductMaterials(products, materials, items[i]))
  {
    assert items[..i + 1][..i] == items[..i];
  }

  /** The inner loop of `check_order_shortages` over one item's materials. */
  method MaterialShortages(orderId: string, item: OrderItem, mats: seq<Material>) returns (found: seq<Shortage>)
    ensures found == ItemShortages(orderId, item, mats)
  {
    found := [];
    var j := 0;
    while j < |mats|
      invariant 0 <= j <= |mats|
      invariant found == ItemShortages(orderId, item, mats[..j])
    {
      var material := mats[j];
      ItemShortagesStep(orderId, item, mats, j);
      var needed := item.quantity * 1;
      var available := material.quantity;
      if needed > available {
        found := found + [Shortage(orderId, material.id, material.name, needed, available, needed - available)];
      }
      j := j + 1;
    }
    assert mats[..j] == mats;
  }

  /** `check_order_shortages`: walks the items and their products' materials, reading and never writing. */
  method CheckOrderShortages(db: Database, orderId: string) returns (shortages: seq<Shortage>)
    ensures shortages == OrderShortages(db.orders, db.products, db.materials, orderId)
  {
    if orderId !in db.orders {
      return [];
    }
    var products, materials := db.products, db.materials;
    var items := db.orders[orderId].items;
    shortages := [];
    var i := 0;
    while i < |items|
      invariant 0 <= i <= |items|
      invariant shortages == ItemsShortages(products, materials, orderId, items[..i])
    {
      var item := items[i];
      ItemsShortagesStep(products, materials, orderId, items, i);
      if item.productId in products && MaterialsOf(materials, products[item.productId].materials) != [] {
        var found := MaterialShortages(orderId, item, MaterialsOf(materials, products[item.productId].materials));
        shortages := shortages + found;
      } else {
        assert ItemShortages(orderId, item, ProductMaterials(products, materials, item)) == [];
        assert shortages + [] == shortages;
      }
      i := i + 1;
    }
    assert items[..i] == items;
  }
}
