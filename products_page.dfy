/** frontEnd/src/pages/Products.jsx: the buildable-quantity helper and the product search. */
module ProductsPage {
  import opened Wrappers
  import opened Arith
  import opened Seqs
  import opened JsRuntime

  /** An entry of the page's `materialsData`. */
  datatype StockMaterial = StockMaterial(id: int, name: string, color: string, quantity: int)

  /** A line of a product's `bom`. */
  datatype BomLine = BomLine(materialId: int, materialName: string, quantity: int)

  /** An entry of the page's `productsData` (the price is a float and is not modelled). */
  datatype SampleProduct = SampleProduct(id: int, name: string, sku: string, color: string, bom: seq<BomLine>, canBuild: int)

  /** `materialsData.find(m => m.id === id)`: the first material with that id. */
  function Find(materials: seq<StockMaterial>, id: int): (r: Option<StockMaterial>)
    ensures r.Some? ==> r.value in materials && r.value.id == id
    ensures r.None? ==> forall m :: m in materials ==> m.id != id
  {
    if materials == [] then None
    else if materials[0].id == id then Some(materials[0])
    else Find(materials[1..], id)
  }

  /** `find` stops at the first match: the result sits at an index before which no material has that id. */
  lemma {:induction false} FindIsFirst(materials: seq<StockMaterial>, id: int)
    ensures Find(materials, id).Some? ==>
              exists i :: 0 <= i < |materials| && materials[i] == Find(materials, id).value
                && forall j :: 0 <= j < i ==> materials[j].id != id
  {
    if materials != [] && materials[0].id != id && Find(materials, id).Some? {
      var rest := materials[1..];
      FindIsFirst(rest, id);
      var i :| 0 <= i < |rest| && rest[i] == Find(rest, id).value && forall j :: 0 <= j < i ==> rest[j].id != id;
      assert materials[i + 1] == rest[i];
      assert forall j :: 1 <= j < i + 1 ==> materials[j] == rest[j - 1];
    }
  }

  /** What one BOM line contributes: `Math.floor(quantity / need)`, or 0 when the material is unknown. */
  function LineValue(materials: seq<StockMaterial>, line: BomLine): JsNumber {
    match Find(materials, line.materialId)
    case None => Finite(0)
    case Some(m) => FloorOfQuotient(m.quantity, line.quantity)
  }

  function LineValues(materials: seq<StockMaterial>, bom: seq<BomLine>): (r: seq<JsNumber>)
    ensures |r| == |bom| && forall i :: 0 <= i < |bom| ==> r[i] == LineValue(materials, bom[i])
  {
    if bom == [] then [] else LineValues(materials, bom[..|bom| - 1]) + [LineValue(materials, bom[|bom| - 1])]
  }

  /** `calculateCanBuild(bom)`: 0 for a null or empty BOM, otherwise `Math.min` of the line values. */
  function CalculateCanBuild(materials: seq<StockMaterial>, bom: Option<seq<BomLine>>): (r: JsNumber)
    ensures bom.None? || bom.value == [] ==> r == Finite(0)
    ensures bom.Some? ==> (r.NaN? <==> exists i :: 0 <= i < |bom.value| && LineValue(materials, bom.value[i]).NaN?)
    ensures bom.Some? && !r.NaN? ==> forall i :: 0 <= i < |bom.value| ==> AtMost(r, LineValue(materials, bom.value[i]))
    ensures bom.Some? && bom.value != [] && !r.NaN? ==> exists i :: 0 <= i < |bom.value| && r == LineValue(materials, bom.value[i])
  {
    if bom.None? || bom.value == [] then Finite(0) else MathMin(LineValues(materials, bom.value))
  }

  /** Every material of every line is known and every line needs a positive quantity. */
  ghost predicate Resolvable(materials: seq<StockMaterial>, bom: seq<BomLine>) {
    forall i :: 0 <= i < |bom| ==> Find(materials, bom[i].materialId).Some? && bom[i].quantity > 0
  }

  /** `floor(stock / need)` for a resolvable line. */
  function Ratio(materials: seq<StockMaterial>, line: BomLine): int
    requires Find(materials, line.materialId).Some? && line.quantity > 0
  {
    FloorDiv(Find(materials, line.materialId).value.quantity, line.quantity)
  }

  /** A null or empty BOM gives 0. */
  lemma CanBuildEmptyBom(materials: seq<StockMaterial>, bom: Option<seq<BomLine>>)
    requires bom.None? || bom.value == []
    ensures CalculateCanBuild(materials, bom) == Finite(0)
  {
  }

  /**
   * When every line resolves, the result is a finite count that is at most
   * `floor(stock / need)` for every line and equal to it for some line: their minimum.
   */
  lemma CanBuildIsMinimum(materials: seq<StockMaterial>, bom: seq<BomLine>)
    requires bom != [] && Resolvable(materials, bom)
    ensures CalculateCanBuild(materials, Some(bom)).Finite?
    ensures forall i :: 0 <= i < |bom| ==> CalculateCanBuild(materials, Some(bom)).n <= Ratio(materials, bom[i])
    ensures exists i :: 0 <= i < |bom| && CalculateCanBuild(materials, Some(bom)).n == Ratio(materials, bom[i])
  {
    var vs := LineValues(materials, bom);
    var r := MathMin(vs);
    assert forall i :: 0 <= i < |bom| ==> vs[i] == Finite(Ratio(materials, bom[i]));
    assert !r.NaN?;
    assert r in vs;
    var k :| 0 <= k < |vs| && vs[k] == r;
    forall i | 0 <= i < |bom| ensures r.n <= Ratio(materials, bom[i]) {
      assert AtMost(r, vs[i]);
    }
  }

  /**
   * A line whose material is not in `materialsData` contributes 0: with any such line the
   * result is at most 0, and exactly 0 when no line can be negative (stock non-negative, needs positive).
   */
  lemma CanBuildUnknownMaterial(materials: seq<StockMaterial>, bom: seq<BomLine>, k: int)
    requires 0 <= k < |bom| && Find(materials, bom[k].materialId).None?
    ensures CalculateCanBuild(materials, Some(bom)).Finite? ==> CalculateCanBuild(materials, Some(bom)).n <= 0
    ensures (forall m :: m in materials ==> m.quantity >= 0) && (forall i :: 0 <= i < |bom| ==> bom[i].quantity > 0) ==>
              CalculateCanBuild(materials, Some(bom)) == Finite(0)
  {
    var vs := LineValues(materials, bom);
    var r := MathMin(vs);
    assert vs[k] == Finite(0);
    if !r.NaN? {
      assert AtMost(r, vs[k]);
    }
    if (forall m :: m in materials ==> m.quantity >= 0) && (forall i :: 0 <= i < |bom| ==> bom[i].quantity > 0) {
      forall i | 0 <= i < |vs| ensures vs[i].Finite? && vs[i].n >= 0 {
        var f := Find(materials, bom[i].materialId);
        if f.Some? {
          FloorDivNonNegative(f.value.quantity, bom[i].quantity);
        }
      }
      assert r in vs;
      assert AtMost(r, vs[k]);
    }
  }

  /** The page's sample `materialsData`. */
  const MaterialsData: seq<StockMaterial> := [
    StockMaterial(1, "Gildan T-Shirt - Red / M", "red", 13),
    StockMaterial(2, "Gildan T-Shirt - Red / L", "red", 46),
    StockMaterial(3, "Gildan T-Shirt - Black / S", "black", 21),
    StockMaterial(4, "Gildan T-Shirt - Black / M", "black", 34),
    StockMaterial(5, "Gildan T-Shirt - Black / L", "black", 27),
    StockMaterial(6, "Gildan T-Shirt - White / S", "white", 34),
    StockMaterial(7, "Gildan T-Shirt - White / M", "white", 51),
    StockMaterial(8, "Gildan T-Shirt - White / L", "white", 29)
  ]

  /** The page's sample `productsData`. */
  const ProductsData: seq<SampleProduct> := [
    SampleProduct(1, "Custom T-Shirt - Red / M", "TSH-RED-M-001", "blue",
      [BomLine(1, "Gildan T-Shirt - Red / M", 1), BomLine(9, "Custom Print Design", 1)], 13),
    SampleProduct(2, "Custom T-Shirt - Black / L", "TSH-BLK-L-002", "green",
      [BomLine(5, "Gildan T-Shirt - Black / L", 1), BomLine(9, "Custom Print Design", 1)], 27),
    SampleProduct(3, "Custom T-Shirt - White / S", "TSH-WHT-S-003", "purple",
      [BomLine(6, "Gildan T-Shirt - White / S", 1), BomLine(9, "Custom Print Design", 1)], 34)
  ]

  /** Material 9 is not among the sample materials, and no sample stock is negative. */
  lemma SampleMaterialsFacts()
    ensures Find(MaterialsData, 9).None?
    ensures forall m :: m in MaterialsData ==> m.quantity >= 0
  {
    forall m | m in MaterialsData ensures m.id != 9 && m.quantity >= 0 {
      var i :| 0 <= i < |MaterialsData| && MaterialsData[i] == m;
    }
  }

  /**
   * Every sample BOM references material 9, which `materialsData` lacks, so `calculateCanBuild`
   * gives 0 for every sample product, although the hard-coded `canBuild` values are positive.
   */
  lemma SampleProductsBuildNothing()
    ensures forall p :: p in ProductsData ==> CalculateCanBuild(MaterialsData, Some(p.bom)) == Finite(0) && p.canBuild > 0
  {
    SampleMaterialsFacts();
    forall p | p in ProductsData
      ensures CalculateCanBuild(MaterialsData, Some(p.bom)) == Finite(0) && p.canBuild > 0
    {
      var k :| 0 <= k < |ProductsData| && ProductsData[k] == p;
      var bom := p.bom;
      assert |bom| == 2 && bom[1].materialId == 9 && bom[0].quantity == 1 && bom[1].quantity == 1;
      CanBuildUnknownMaterial(MaterialsData, bom, 1);
    }
  }

  /** The search predicate: the lower-cased name or SKU includes the lower-cased term. */
  predicate ProductMatches(p: SampleProduct, term: string) {
    Includes(ToLowerCase(p.name), ToLowerCase(term)) || Includes(ToLowerCase(p.sku), ToLowerCase(term))
  }

  /** `filteredProducts`. */
  function FilteredProducts(products: seq<SampleProduct>, term: string): (r: seq<SampleProduct>)
    ensures forall p :: p in r <==> p in products && ProductMatches(p, term)
  {
    Filter(products, p => ProductMatches(p, term))
  }

  /** The search keeps the products' order, and an empty term keeps every product. */
  lemma FilteredProductsOrder(a: seq<SampleProduct>, b: seq<SampleProduct>, term: string)
    ensures FilteredProducts(a + b, term) == FilteredProducts(a, term) + FilteredProducts(b, term)
    ensures term == "" ==> FilteredProducts(a, term) == a
  {
    FilterAppend(a, b, p => ProductMatches(p, term));
    if term == "" {
      forall p | p in a ensures ProductMatches(p, term) {
        IncludesEmpty(ToLowerCase(p.name));
      }
      FilterKeepsAll(a, p => ProductMatches(p, term));
    }
  }
}
