/** The product table (`ProductsService`): create with sku/barcode
    uniqueness, the active-only listings, lookups, the signed stock update
    the sales, purchase and return workflows call, update and soft remove.
    Also the specification of a run of stock updates, as those workflows
    issue them one item at a time. */
module Products {
  import opened Common

  datatype Product = Product(
    id: Id,
    sku: string,
    name: string,
    description: Option<string>,
    barcode: Option<string>,
    price: Money,
    cost: Money,
    stock: int,
    minStock: int,
    isActive: bool,
    categoryId: Id,
    brandId: Id)

  /** The fields a client supplies to create or update a product. */
  datatype ProductInput = ProductInput(
    sku: string,
    name: string,
    description: Option<string>,
    barcode: Option<string>,
    price: Money,
    cost: Money,
    stock: int,
    minStock: int,
    categoryId: Id,
    brandId: Id)

  predicate UniqueIds(products: seq<Product>) {
    forall i, j :: 0 <= i < j < |products| ==> products[i].id != products[j].id
  }

  /** Where the repository finds the product with primary key `id`. */
  function ProductIndex(products: seq<Product>, id: Id): (r: Option<nat>)
    ensures r.Some? ==> r.value < |products| && products[r.value].id == id
    ensures r.Some? ==> forall k :: 0 <= k < r.value ==> products[k].id != id
    ensures r.None? <==> forall k :: 0 <= k < |products| ==> products[k].id != id
    decreases |products|
  {
    if |products| == 0 then None
    else if products[0].id == id then Some(0)
    else match ProductIndex(products[1..], id)
      case None => None
      case Some(k) => Some(k + 1)
  }

  /** `findOne`: the product, or NotFound. */
  function FindProduct(products: seq<Product>, id: Id): (r: Result<Product>)
    ensures r.Ok? <==> exists k :: 0 <= k < |products| && products[k].id == id
    ensures r.Ok? ==> r.value in products && r.value.id == id
    ensures r.Ok? ==> r.value == products[ProductIndex(products, id).value]
    ensures r.Err? ==> r.error == NotFound("Product")
  {
    match ProductIndex(products, id)
    case Some(k) => Ok(products[k])
    case None => Err(NotFound("Product"))
  }

  /** The conflict test of `create`: a product with the same sku, or, when
      a barcode is supplied, with the same barcode. */
  predicate Clashes(products: seq<Product>, input: ProductInput) {
    exists k :: 0 <= k < |products|
      && (products[k].sku == input.sku || (input.barcode.Some? && products[k].barcode == input.barcode))
  }

  /** A new record; products start active. */
  function NewProduct(id: Id, input: ProductInput): Product {
    Product(id, input.sku, input.name, input.description, input.barcode, input.price, input.cost,
            input.stock, input.minStock, true, input.categoryId, input.brandId)
  }

  /** `Object.assign(product, dto)`: every supplied field overwrites (the
      stock figure included); an absent description or barcode keeps the
      old one; id and the active flag stay. */
  function Assign(p: Product, input: ProductInput): Product {
    p.(sku := input.sku, name := input.name,
       description := if input.description.Some? then input.description else p.description,
       barcode := if input.barcode.Some? then input.barcode else p.barcode,
       price := input.price, cost := input.cost, stock := input.stock, minStock := input.minStock,
       categoryId := input.categoryId, brandId := input.brandId)
  }

  function ActiveProducts(products: seq<Product>): (r: seq<Product>)
    ensures |r| <= |products|
    ensures forall p :: p in r <==> p in products && p.isActive
  {
    if |products| == 0 then []
    else
      var p := products[|products| - 1];
      var rest := ActiveProducts(products[..|products| - 1]);
      assert products == products[..|products| - 1] + [p];
      if p.isActive then rest + [p] else rest
  }

  /** The active filter keeps each active product as often as it is
      stored and drops the others. */
  lemma {:induction false} ActiveProductsMultiplicity(products: seq<Product>)
    ensures forall p :: multiset(ActiveProducts(products))[p] == if p.isActive then multiset(products)[p] else 0
    decreases |products|
  {
    if |products| > 0 {
      var p := products[|products| - 1];
      assert products == products[..|products| - 1] + [p];
      ActiveProductsMultiplicity(products[..|products| - 1]);
    }
  }

  /** `product.stock += quantity` on row `k`. */
  function AddStock(products: seq<Product>, k: nat, quantity: int): seq<Product>
    requires k < |products|
  {
    products[k := products[k].(stock := products[k].stock + quantity)]
  }

  /** The two records agree on every field but the stock figure. */
  predicate SameButStock(a: Product, b: Product) {
    a.id == b.id && a.sku == b.sku && a.name == b.name && a.description == b.description
    && a.barcode == b.barcode && a.price == b.price && a.cost == b.cost && a.minStock == b.minStock
    && a.isActive == b.isActive && a.categoryId == b.categoryId && a.brandId == b.brandId
  }

  /** `after` is `before` with at most the stock figures changed. */
  predicate StocksOnly(before: seq<Product>, after: seq<Product>) {
    |after| == |before| && forall k :: 0 <= k < |after| ==> SameButStock(before[k], after[k])
  }

  lemma StocksOnlySameIndex(a: seq<Product>, b: seq<Product>, id: Id)
    requires StocksOnly(a, b)
    ensures UniqueIds(a) ==> UniqueIds(b)
    ensures ProductIndex(a, id) == ProductIndex(b, id)
  {
    assert forall k :: 0 <= k < |a| ==> a[k].id == b[k].id;
  }

  /** One signed stock update requested by a workflow. */
  datatype StockChange = StockChange(productId: Id, quantity: int)

  datatype StockRun = StockRun(products: seq<Product>, failure: Option<Error>)

  /** One `updateStock` call: the stock of the product moves by the
      signed quantity, or NotFound when no product has the id. */
  function ApplyChange(products: seq<Product>, change: StockChange): (r: StockRun)
    ensures |r.products| == |products|
  {
    match ProductIndex(products, change.productId)
    case None => StockRun(products, Some(NotFound("Product")))
    case Some(k) => StockRun(AddStock(products, k, change.quantity), None)
  }

  /** A sequence of `updateStock` calls: each is applied in turn, and the
      first unknown product stops the run with the earlier updates kept. */
  function ApplyChanges(products: seq<Product>, changes: seq<StockChange>): (r: StockRun)
    ensures |r.products| == |products|
    decreases |changes|
  {
    if |changes| == 0 then StockRun(products, None)
    else
      var step := ApplyChange(products, changes[0]);
      if step.failure.Some? then step else ApplyChanges(step.products, changes[1..])
  }

  /** One update changes at most the stock figure of the row it names. */
  lemma AddStockKeepsOtherFields(products: seq<Product>, k: nat, quantity: int)
    requires k < |products|
    ensures StocksOnly(products, AddStock(products, k, quantity))
    ensures AddStock(products, k, quantity)[k].stock == products[k].stock + quantity
  {
    var after := AddStock(products, k, quantity);
    forall j | 0 <= j < |products| ensures SameButStock(products[j], after[j]) {
      if j != k {
        assert after[j] == products[j];
      }
    }
  }

  /** A run changes at most stock figures, whatever it meets. */
  lemma {:induction false} ApplyChangesKeepsOtherFields(products: seq<Product>, changes: seq<StockChange>)
    ensures StocksOnly(products, ApplyChanges(products, changes).products)
    decreases |changes|
  {
    if |changes| > 0 {
      var found := ProductIndex(products, changes[0].productId);
      if found.Some? {
        var next := AddStock(products, found.value, changes[0].quantity);
        AddStockKeepsOtherFields(products, found.value, changes[0].quantity);
        ApplyChangesKeepsOtherFields(next, changes[1..]);
        assert ApplyChanges(products, changes) == ApplyChanges(next, changes[1..]);
      }
    }
  }

  /** A run fails only with NotFound, and completes iff every change names
      a known product. */
  lemma {:induction false} ApplyChangesFailure(products: seq<Product>, changes: seq<StockChange>)
    ensures ApplyChanges(products, changes).failure.Some?
            ==> ApplyChanges(products, changes).failure.value == NotFound("Product")
    ensures ApplyChanges(products, changes).failure.None?
        <==> forall k :: 0 <= k < |changes| ==> ProductIndex(products, changes[k].productId).Some?
    decreases |changes|
  {
    if |changes| > 0 {
      var found := ProductIndex(products, changes[0].productId);
      if found.Some? {
        var next, rest := AddStock(products, found.value, changes[0].quantity), changes[1..];
        AddStockKeepsOtherFields(products, found.value, changes[0].quantity);
        forall j | 0 <= j < |rest|
          ensures ProductIndex(next, rest[j].productId) == ProductIndex(products, rest[j].productId)
        {
          StocksOnlySameIndex(products, next, rest[j].productId);
        }
        ApplyChangesFailure(next, rest);
        assert ApplyChanges(products, changes) == ApplyChanges(next, rest);
        if ApplyChanges(next, rest).failure.None? {
          forall j | 0 <= j < |changes|
            ensures ProductIndex(products, changes[j].productId).Some?
          {
            if j > 0 {
              assert changes[j] == rest[j - 1];
            }
          }
        } else {
          var j :| 0 <= j < |rest| && ProductIndex(next, rest[j].productId).None?;
          assert changes[j + 1] == rest[j];
        }
      }
    }
  }

  /** The net quantity the changes bring to product `id`. */
  function QuantityFor(id: Id, changes: seq<StockChange>): int
    decreases |changes|
  {
    if |changes| == 0 then 0
    else (if changes[0].productId == id then changes[0].quantity else 0) + QuantityFor(id, changes[1..])
  }

  /** Changes that each add at least one unit never lower a product's net
      quantity, and raise it when they name the product. */
  lemma {:induction false} IncomingNeverLowersStock(id: Id, changes: seq<StockChange>)
    requires forall k :: 0 <= k < |changes| ==> changes[k].quantity >= 1
    ensures QuantityFor(id, changes) >= 0
    ensures (exists k :: 0 <= k < |changes| && changes[k].productId == id) ==> QuantityFor(id, changes) >= 1
    decreases |changes|
  {
    if |changes| > 0 {
      IncomingNeverLowersStock(id, changes[1..]);
      assert forall k :: 1 <= k < |changes| ==> changes[k] == changes[1..][k - 1];
    }
  }

  /** Changes that each remove at least one unit never raise a product's
      net quantity, and lower it when they name the product. */
  lemma {:induction false} OutgoingNeverRaisesStock(id: Id, changes: seq<StockChange>)
    requires forall k :: 0 <= k < |changes| ==> changes[k].quantity <= -1
    ensures QuantityFor(id, changes) <= 0
    ensures (exists k :: 0 <= k < |changes| && changes[k].productId == id) ==> QuantityFor(id, changes) <= -1
    decreases |changes|
  {
    if |changes| > 0 {
      OutgoingNeverRaisesStock(id, changes[1..]);
      assert forall k :: 1 <= k < |changes| ==> changes[k] == changes[1..][k - 1];
    }
  }

  /** A completed run leaves every product at its old stock plus the net
      quantity requested for it, and nothing else changed. */
  lemma {:induction false} ApplyChangesPerProduct(products: seq<Product>, changes: seq<StockChange>, k: nat)
    requires UniqueIds(products) && k < |products|
    requires ApplyChanges(products, changes).failure.None?
    ensures ApplyChanges(products, changes).products[k]
         == products[k].(stock := products[k].stock + QuantityFor(products[k].id, changes))
    decreases |changes|
  {
    if |changes| > 0 {
      var j := ProductIndex(products, changes[0].productId).value;
      var next := AddStock(products, j, changes[0].quantity);
      assert ApplyChange(products, changes[0]).products == next;
      StocksOnlySameIndex(products, next, products[k].id);
      assert next[k].id == products[k].id;
      ApplyChangesPerProduct(next, changes[1..], k);
    }
  }

  /** The product table, updated in place. */
  class ProductCatalog {
    var products: seq<Product>

    ghost predicate Valid()
      reads this
    {
      UniqueIds(products)
    }

    constructor ()
      ensures Valid() && products == []
    {
      products := [];
    }

    /** `create`: a conflict on a shared sku or barcode, otherwise exactly
        one new active record. */
    method Create(id: Id, input: ProductInput) returns (r: Result<Product>)
      requires Valid()
      requires forall k :: 0 <= k < |products| ==> products[k].id != id
      modifies this
      ensures Valid()
      ensures r.Err? <==> Clashes(old(products), input)
      ensures r.Err? ==> r.error == Conflict("SKU or Barcode already exists") && products == old(products)
      ensures r.Ok? ==> r.value == NewProduct(id, input) && products == old(products) + [r.value]
    {
      if Clashes(products, input) {
        return Err(Conflict("SKU or Barcode already exists"));
      }
      var product := NewProduct(id, input);
      products := products + [product];
      return Ok(product);
    }

    /** `findAll`: exactly the active products. */
    function FindAll(): (r: seq<Product>)
      reads this
      ensures forall p :: p in r <==> p in products && p.isActive
      ensures forall p :: multiset(r)[p] == if p.isActive then multiset(products)[p] else 0
    {
      ActiveProductsMultiplicity(products);
      ActiveProducts(products)
    }

    /** `findOne`: the record with the id, active or not, or NotFound. */
    function FindOne(id: Id): (r: Result<Product>)
      reads this
      ensures r.Ok? <==> exists k :: 0 <= k < |products| && products[k].id == id
      ensures r.Ok? ==> r.value in products && r.value.id == id
      ensures r.Ok? ==> r.value == products[ProductIndex(products, id).value]
      ensures r.Err? ==> r.error == NotFound("Product")
    {
      FindProduct(products, id)
    }

    /** `findByBarcode`: an active product with the barcode, or NotFound;
        a removed product is not found by its barcode. */
    function FindByBarcode(barcode: string): (r: Result<Product>)
      reads this
      ensures r.Ok? <==> exists k :: 0 <= k < |products| && products[k].barcode == Some(barcode) && products[k].isActive
      ensures r.Ok? ==> r.value in products && r.value.barcode == Some(barcode) && r.value.isActive
      ensures r.Err? ==> r.error == NotFound("Product")
    {
      match FirstIndex(products, (p: Product) => p.barcode == Some(barcode) && p.isActive)
      case Some(k) => Ok(products[k])
      case None => Err(NotFound("Product"))
    }

    /** `updateStock`: stock += quantity, with no lower bound, on the one
        record; NotFound otherwise. */
    method UpdateStock(id: Id, quantity: int) returns (r: Result<Product>)
      requires Valid()
      modifies this
      ensures Valid()
      ensures match ProductIndex(old(products), id)
        case None => r == Err(NotFound("Product")) && products == old(products)
        case Some(k) => products == AddStock(old(products), k, quantity) && r == Ok(products[k])
    {
      var k := ProductIndex(products, id);
      if k.None? {
        return Err(NotFound("Product"));
      }
      StocksOnlySameIndex(products, AddStock(products, k.value, quantity), id);
      products := AddStock(products, k.value, quantity);
      return Ok(products[k.value]);
    }

    /** The stock loop of the purchase and return workflows: one
        `updateStock` call per change, in order; the first unknown product
        stops the loop with the earlier updates kept. */
    method UpdateStocks(changes: seq<StockChange>) returns (failure: Option<Error>)
      requires Valid()
      modifies this
      ensures Valid()
      ensures products == ApplyChanges(old(products), changes).products
      ensures failure == ApplyChanges(old(products), changes).failure
    {
      var i := 0;
      while i < |changes|
        invariant 0 <= i <= |changes|
        invariant Valid()
        invariant ApplyChanges(old(products), changes) == ApplyChanges(products, changes[i..])
      {
        assert changes[i..][0] == changes[i] && changes[i..][1..] == changes[i + 1..];
        var r := UpdateStock(changes[i].productId, changes[i].quantity);
        if r.Err? {
          return Some(r.error);
        }
        i := i + 1;
      }
      return None;
    }

    /** `update`: overwrite the supplied fields; no uniqueness check. */
    method Update(id: Id, input: ProductInput) returns (r: Result<Product>)
      requires Valid()
      modifies this
      ensures Valid()
      ensures match ProductIndex(old(products), id)
        case None => r == Err(NotFound("Product")) && products == old(products)
        case Some(k) => r == Ok(Assign(old(products)[k], input)) && products == old(products)[k := r.value]
    {
      var k := ProductIndex(products, id);
      if k.None? {
        return Err(NotFound("Product"));
      }
      var product := Assign(products[k.value], input);
      products := products[k.value := product];
      return Ok(product);
    }

    /** `remove`: a soft delete; the record otherwise stays as it was. */
    method Remove(id: Id) returns (r: Result<()>)
      requires Valid()
      modifies this
      ensures Valid()
      ensures match ProductIndex(old(products), id)
        case None => r == Err(NotFound("Product")) && products == old(products)
        case Some(k) => r == Ok(()) && products == old(products)[k := old(products)[k].(isActive := false)]
    {
      var k := ProductIndex(products, id);
      if k.None? {
        return Err(NotFound("Product"));
      }
      products := products[k.value := products[k.value].(isActive := false)];
      return Ok(());
    }
  }

  /** A removed product keeps its record but leaves the listing and can no
      longer be found by barcode, while `findOne` still finds it. */
  lemma RemovedProductIsHidden(products: seq<Product>, k: nat)
    requires UniqueIds(products) && k < |products| && products[k].barcode.Some?
    ensures var after := products[k := products[k].(isActive := false)];
            products[k].(isActive := false) !in ActiveProducts(after)
            && FindProduct(after, products[k].id) == Ok(after[k])
  {
    var after := products[k := products[k].(isActive := false)];
    var id := products[k].id;
    assert after[k].id == id;
    var i := ProductIndex(after, id);
    assert i.Some?;
    assert after[i.value].id == products[i.value].id;
  }
}
