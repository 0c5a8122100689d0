/**
 * `generate_products` (etl/generate_data.py:126-156,
 * etl/generate_data_simple.py:55-81).
 *
 * Each product's draw carries the log-normal price already rounded to
 * cents, the index that `random.choice` picks among the categories and the
 * two capitalised Faker words of its name.
 */
module ProductGenerator {
  import opened Wrappers
  import opened Records
  import opened Schema

  datatype ProductDraw = ProductDraw(roundedPrice: Cents, categoryIndex: int, firstWord: string, secondWord: string)

  predicate ProductDrawOk(d: ProductDraw)
  {
    0 <= d.categoryIndex < |Categories|
  }

  /** `max(0.01, price)` in cents. */
  function FlooredPrice(price: Cents): (r: Cents)
    ensures r >= MinPrice
    ensures r == price || (price < MinPrice && r == MinPrice)
  {
    if price < MinPrice then MinPrice else price
  }

  function ProductRow(k: nat, d: ProductDraw): Product
    requires ProductDrawOk(d)
  {
    Product(k + 1, Some(d.firstWord + " " + d.secondWord), Categories[d.categoryIndex], FlooredPrice(d.roundedPrice))
  }

  /** The product list the loop builds from its draws. */
  function ProductRows(draws: seq<ProductDraw>): (rows: seq<Product>)
    requires forall d :: d in draws ==> ProductDrawOk(d)
    ensures |rows| == |draws|
    ensures Dense(ProductIds(rows))
    ensures forall k :: 0 <= k < |rows| ==>
      rows[k].price >= MinPrice && rows[k].category in Categories && TextAtLeast(rows[k].name, 1)
  {
    var rows := seq(|draws|, k requires 0 <= k < |draws| => ProductRow(k, draws[k]));
    forall k | 0 <= k < |rows| ensures rows[k].category in Categories {
      assert draws[k] in draws;
      assert ProductDrawOk(draws[k]);
      assert rows[k] == ProductRow(k, draws[k]);
    }
    rows
  }

  /** Every generated frame passes the full script's schema unless it is empty. */
  lemma {:induction false} ProductsSchemaIff(draws: seq<ProductDraw>)
    requires forall d :: d in draws ==> ProductDrawOk(d)
    ensures ProductsSchema(ProductRows(draws)) <==> |draws| > 0
  {
    var rows := ProductRows(draws);
    DenseIsDistinct(ProductIds(rows));
    forall p | p in rows ensures p.productId > 0 && p.price > 0 && p.category in Categories && TextAtLeast(p.name, 1) {
      var k :| 0 <= k < |rows| && rows[k] == p;
      assert ProductIds(rows)[k] == p.productId;
    }
  }

  /**
   * Builds `numProducts` products with ids 1..numProducts. A negative count
   * fails first, in both scripts, at the log-normal price draw, which
   * rejects a negative size. A count of zero gives an empty frame, which
   * fails at the schema step in the full script and at the price range it
   * logs in the simple one.
   */
  method GenerateProducts(variant: Variant, numProducts: int, draws: seq<ProductDraw>)
    returns (r: Result<seq<Product>, GenerationError>)
    requires |draws| == RangeLength(numProducts)
    requires forall d :: d in draws ==> ProductDrawOk(d)
    ensures numProducts < 0 ==> r == Failure(NegativeSize(ProductsTable))
    ensures variant.Simple? && numProducts == 0 ==> r == Failure(MissingColumn(ProductsTable))
    ensures variant.Full? && numProducts == 0 ==> r == Failure(SchemaError(ProductsTable))
    ensures numProducts >= 0 && (variant.Full? || numProducts >= 1) ==>
      r == Gate(variant, ProductsSchema(ProductRows(draws)), ProductsTable, ProductRows(draws))
    ensures r.Success? <==> numProducts >= 1
  {
    if numProducts < 0 {
      return Failure(NegativeSize(ProductsTable));
    }
    var products: seq<Product> := [];
    var k := 0;
    while k < |draws|
      invariant 0 <= k <= |draws|
      invariant |products| == k
      invariant forall j :: 0 <= j < k ==> products[j] == ProductRow(j, draws[j])
    {
      var d := draws[k];
      assert ProductDrawOk(d) by { assert d in draws; }
      var category := Categories[d.categoryIndex];
      var price := FlooredPrice(d.roundedPrice);
      products := products + [Product(k + 1, Some(d.firstWord + " " + d.secondWord), category, price)];
      k := k + 1;
    }
    assert products == ProductRows(draws);
    ProductsSchemaIff(draws);
    if variant.Simple? && products == [] {
      return Failure(MissingColumn(ProductsTable));
    }
    r := Gate(variant, ProductsSchema(products), ProductsTable, products);
  }
}
