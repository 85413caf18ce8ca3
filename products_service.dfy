/** backEnd/services/products_service.py: product rows and the buildable-quantity computation. */
module ProductsService {
  import opened Wrappers
  import opened Arith
  import opened Seqs
  import opened Database

  /** A Python result that may instead have raised `ZeroDivisionError` (a BOM quantity of 0). */
  datatype Raises<T> = Ok(value: T) | ZeroDivisionError

  /** The running minimum of `calculate_can_build`: `float('inf')` until a BOM row is seen. */
  datatype Bound = Infinity | AtMost(n: int)

  /** `min(min_quantity, can_build)`. */
  function MinBound(b: Bound, x: int): (r: Bound)
    ensures r.AtMost? && r.n <= x && (b.AtMost? ==> r.n <= b.n)
    ensures r.n == x || (b.AtMost? && r.n == b.n)
  {
    if b.AtMost? && b.n <= x then b else AtMost(x)
  }

  /** The material's BOM row for this product exists. */
  predicate HasRow(bom: map<(int, int), int>, pid: int, m: Material) {
    (pid, m.id) in bom
  }

  /** `available // required` for a material with a non-zero BOM row. */
  function Ratio(bom: map<(int, int), int>, pid: int, m: Material): int
    requires HasRow(bom, pid, m) && bom[(pid, m.id)] != 0
  {
    FloorDiv(m.quantity, bom[(pid, m.id)])
  }

  /** The loop of `calculate_can_build` over `mats`: skips materials without a BOM row, raises on a zero quantity. */
  function Scan(bom: map<(int, int), int>, pid: int, mats: seq<Material>): Raises<Bound>
  {
    if mats == [] then Ok(Infinity)
    else
      var m := mats[|mats| - 1];
      match Scan(bom, pid, mats[..|mats| - 1])
      case ZeroDivisionError => ZeroDivisionError
      case Ok(b) =>
        if !HasRow(bom, pid, m) then Ok(b)
        else if bom[(pid, m.id)] == 0 then ZeroDivisionError
        else Ok(MinBound(b, Ratio(bom, pid, m)))
  }

  /** `calculate_can_build` as a function of the tables. */
  function CanBuildOf(products: map<int, Product>, materials: map<int, Material>, bom: map<(int, int), int>, pid: int): Raises<int>
  {
    if pid !in products || MaterialsOf(materials, products[pid].materials) == [] then Ok(0)
    else match Scan(bom, pid, MaterialsOf(materials, products[pid].materials))
      case ZeroDivisionError => ZeroDivisionError
      case Ok(Infinity) => Ok(0)
      case Ok(AtMost(n)) => Ok(n)
  }

  /**
   * What the scan computes: it raises exactly when some material has a zero BOM quantity;
   * it stays at infinity exactly when no material has a BOM row; otherwise it is at most
   * every material's ratio and equal to one of them.
   */
  lemma {:induction false} ScanSpec(bom: map<(int, int), int>, pid: int, mats: seq<Material>)
    ensures Scan(bom, pid, mats).ZeroDivisionError? <==>
              exists i :: 0 <= i < |mats| && HasRow(bom, pid, mats[i]) && bom[(pid, mats[i].id)] == 0
    ensures Scan(bom, pid, mats) == Ok(Infinity) <==> forall i :: 0 <= i < |mats| ==> !HasRow(bom, pid, mats[i])
    ensures Scan(bom, pid, mats).Ok? && Scan(bom, pid, mats).value.AtMost? ==>
              var n := Scan(bom, pid, mats).value.n;
              && (forall i :: 0 <= i < |mats| && HasRow(bom, pid, mats[i]) ==> n <= Ratio(bom, pid, mats[i]))
              && (exists i :: 0 <= i < |mats| && HasRow(bom, pid, mats[i]) && n == Ratio(bom, pid, mats[i]))
  {
    if mats != [] {
      var p := mats[..|mats| - 1];
      ScanSpec(bom, pid, p);
      assert forall i :: 0 <= i < |p| ==> p[i] == mats[i];
    }
  }

  /** A missing product, or one whose `materials` relationship is empty, can build 0. */
  lemma CanBuildMissingOrEmpty(products: map<int, Product>, materials: map<int, Material>, bom: map<(int, int), int>, pid: int)
    requires pid !in products || products[pid].materials == []
    ensures CanBuildOf(products, materials, bom, pid) == Ok(0)
  {
  }

  /** When none of the product's materials has a BOM row, the infinite sentinel is reported as 0. */
  lemma CanBuildNoRows(products: map<int, Product>, materials: map<int, Material>, bom: map<(int, int), int>, pid: int)
    requires pid in products
    requires forall m :: m in MaterialsOf(materials, products[pid].materials) ==> !HasRow(bom, pid, m)
    ensures CanBuildOf(products, materials, bom, pid) == Ok(0)
  {
    ScanSpec(bom, pid, MaterialsOf(materials, products[pid].materials));
  }

  /**
   * The result is the minimum of `available // required` over the product's materials that
   * have a BOM row: at most each of them, and equal to one of them when there is one.
   */
  lemma CanBuildIsMinimum(products: map<int, Product>, materials: map<int, Material>, bom: map<(int, int), int>, pid: int, n: int)
    requires pid in products
    requires CanBuildOf(products, materials, bom, pid) == Ok(n)
    ensures forall m :: m in MaterialsOf(materials, products[pid].materials) && HasRow(bom, pid, m) ==>
              bom[(pid, m.id)] != 0 && n <= Ratio(bom, pid, m)
    ensures (exists m :: m in MaterialsOf(materials, products[pid].materials) && HasRow(bom, pid, m)) ==>
              exists m :: m in MaterialsOf(materials, products[pid].materials) && HasRow(bom, pid, m) && n == Ratio(bom, pid, m)
  {
    var mats := MaterialsOf(materials, products[pid].materials);
    ScanSpec(bom, pid, mats);
    forall m | m in mats && HasRow(bom, pid, m) ensures bom[(pid, m.id)] != 0 && n <= Ratio(bom, pid, m) {
      var i :| 0 <= i < |mats| && mats[i] == m;
    }
    if exists m :: m in mats && HasRow(bom, pid, m) {
      var m :| m in mats && HasRow(bom, pid, m);
      var i :| 0 <= i < |mats| && mats[i] == m;
      var j :| 0 <= j < |mats| && HasRow(bom, pid, mats[j]) && n == Ratio(bom, pid, mats[j]);
      assert mats[j] in mats;
    }
  }

  /** `ZeroDivisionError` is raised exactly when one of the product's materials has a BOM quantity of 0. */
  lemma CanBuildRaises(products: map<int, Product>, materials: map<int, Material>, bom: map<(int, int), int>, pid: int)
    requires pid in products
    ensures CanBuildOf(products, materials, bom, pid).ZeroDivisionError? <==>
              exists m :: m in MaterialsOf(materials, products[pid].materials) && HasRow(bom, pid, m) && bom[(pid, m.id)] == 0
  {
    var mats := MaterialsOf(materials, products[pid].materials);
    ScanSpec(bom, pid, mats);
    if exists m :: m in mats && HasRow(bom, pid, m) && bom[(pid, m.id)] == 0 {
      var m :| m in mats && HasRow(bom, pid, m) && bom[(pid, m.id)] == 0;
      var i :| 0 <= i < |mats| && mats[i] == m;
    }
  }

  /** With non-negative stock and positive BOM quantities the result is a non-negative count. */
  lemma CanBuildNonNegative(products: map<int, Product>, materials: map<int, Material>, bom: map<(int, int), int>, pid: int)
    requires forall id :: id in materials ==> materials[id].id == id && materials[id].quantity >= 0
    requires forall k :: k in bom ==> bom[k] > 0
    ensures CanBuildOf(products, materials, bom, pid).Ok?
    ensures CanBuildOf(products, materials, bom, pid).value >= 0
  {
    if pid in products {
      var mats := MaterialsOf(materials, products[pid].materials);
      MaterialsOfSpec(materials, products[pid].materials);
      CanBuildRaises(products, materials, bom, pid);
      ScanSpec(bom, pid, mats);
      var r := Scan(bom, pid, mats);
      if mats != [] && r.Ok? && r.value.AtMost? {
        var i :| 0 <= i < |mats| && HasRow(bom, pid, mats[i]) && r.value.n == Ratio(bom, pid, mats[i]);
        assert mats[i] in mats;
        FloorDivNonNegative(mats[i].quantity, bom[(pid, mats[i].id)]);
      }
    }
  }

  /** `calculate_can_build`: loops over the product's materials keeping the running minimum. */
  method CalculateCanBuild(db: Database, pid: int) returns (r: Raises<int>)
    requires db.Valid()
    ensures r == CanBuildOf(db.products, db.materials, db.bomQuantity, pid)
  {
    if pid !in db.products || MaterialsOf(db.materials, db.products[pid].materials) == [] {
      return Ok(0);
    }
    var mats := MaterialsOf(db.materials, db.products[pid].materials);
    var minQuantity := Infinity;
    var i := 0;
    while i < |mats|
      invariant 0 <= i <= |mats|
      invariant Scan(db.bomQuantity, pid, mats[..i]) == Ok(minQuantity)
    {
      var m := mats[i];
      assert mats[..i + 1][..i] == mats[..i];
      if (pid, m.id) in db.bomQuantity {
        var required := db.bomQuantity[(pid, m.id)];
        if required == 0 {
          ScanSpec(db.bomQuantity, pid, mats);
          assert HasRow(db.bomQuantity, pid, mats[i]);
          return ZeroDivisionError;
        }
        var canBuild := FloorDiv(m.quantity, required);
        minQuantity := if minQuantity.AtMost? && minQuantity.n <= canBuild then minQuantity else AtMost(canBuild);
      }
      i := i + 1;
    }
    assert mats[..i] == mats;
    r := if minQuantity.Infinity? then Ok(0) else Ok(minQuantity.n);
  }

  /** `update_product_can_build`: stores the computed count in `can_build` and changes nothing else. */
  method UpdateProductCanBuild(db: Database, pid: int) returns (r: Raises<Option<Product>>)
    requires db.Valid()
    modifies db`products
    ensures db.Valid()
    ensures pid !in old(db.products) ==> r == Ok(None) && db.products == old(db.products)
    ensures pid in old(db.products) && CanBuildOf(old(db.products), db.materials, db.bomQuantity, pid).ZeroDivisionError? ==>
              r == ZeroDivisionError && db.products == old(db.products)
    ensures pid in old(db.products) && CanBuildOf(old(db.products), db.materials, db.bomQuantity, pid).Ok? ==>
              var n := CanBuildOf(old(db.products), db.materials, db.bomQuantity, pid).value;
              && db.products == old(db.products)[pid := old(db.products)[pid].(canBuild := n)]
              && r == Ok(Some(db.products[pid]))
  {
    if pid !in db.products {
      return Ok(None);
    }
    var n := CalculateCanBuild(db, pid);
    if n.ZeroDivisionError? {
      return ZeroDivisionError;
    }
    db.products := db.products[pid := db.products[pid].(canBuild := n.value)];
    r := Ok(Some(db.products[pid]));
  }

  /** One supplied field of a `ProductUpdate` (the float `price` is not modelled). */
  datatype ProductField = SetName(name: string) | SetSku(sku: string) | SetColor(color: string)

  function NameOf(f: ProductField): Option<string> { if f.SetName? then Some(f.name) else None }
  function SkuOf(f: ProductField): Option<string> { if f.SetSku? then Some(f.sku) else None }
  function ColorOf(f: ProductField): Option<string> { if f.SetColor? then Some(f.color) else None }

  function Assign(p: Product, f: ProductField): Product {
    match f
    case SetName(v) => p.(name := v)
    case SetSku(v) => p.(sku := v)
    case SetColor(v) => p.(color := v)
  }

  /** The product after the update loop: supplied columns take their last value, the rest keep theirs. */
  function Patched(p: Product, patch: seq<ProductField>): (r: Product)
    ensures r.id == p.id && r.canBuild == p.canBuild && r.materials == p.materials
    ensures r.name == Last(patch, NameOf).GetOr(p.name)
    ensures r.sku == Last(patch, SkuOf).GetOr(p.sku)
    ensures r.color == Last(patch, ColorOf).GetOr(p.color)
  {
    if patch == [] then p else Assign(Patched(p, patch[..|patch| - 1]), patch[|patch| - 1])
  }

  /** Sending the same update twice leaves the row as sending it once. */
  lemma PatchedTwice(p: Product, patch: seq<ProductField>)
    ensures Patched(Patched(p, patch), patch) == Patched(p, patch)
  {
  }

  /** `update_product`: `None` for an unknown id; otherwise applies the supplied fields in place. */
  method UpdateProduct(db: Database, pid: int, patch: seq<ProductField>) returns (r: Option<Product>)
    requires db.Valid()
    modifies db`products
    ensures db.Valid()
    ensures pid !in old(db.products) ==> r == None && db.products == old(db.products)
    ensures pid in old(db.products) ==>
      && db.products == old(db.products)[pid := Patched(old(db.products)[pid], patch)]
      && r == Some(db.products[pid])
  {
    if pid !in db.products {
      return None;
    }
    var i := 0;
    while i < |patch|
      invariant 0 <= i <= |patch|
      invariant db.products == old(db.products)[pid := Patched(old(db.products)[pid], patch[..i])]
    {
      assert patch[..i + 1][..i] == patch[..i];
      db.products := db.products[pid := Assign(db.products[pid], patch[i])];
      i := i + 1;
    }
    assert patch[..i] == patch;
    r := Some(db.products[pid]);
  }

  /** `delete_product`: `false` for an unknown id; otherwise the row is gone. */
  method DeleteProduct(db: Database, pid: int) returns (deleted: bool)
    requires db.Valid()
    modifies db`products
    ensures db.Valid()
    ensures deleted <==> pid in old(db.products)
    ensures db.products == old(db.products) - {pid}
  {
    if pid !in db.products {
      return false;
    }
    db.products := db.products - {pid};
    deleted := true;
  }
}
