/** Purchase orders (`PurchasesService`): `create` checks every item's
    product, adds up the cost and stores a pending order with a
    `PO-YYYYMMDD-NNNN` number; `receivePurchase` moves a pending order to
    received and raises the stock of every item's product. */
module Purchases {
  import opened Common
  import opened Numbering
  import opened Products

  datatype PurchaseStatus = Pending | Received | Cancelled

  datatype PurchaseItemInput = PurchaseItemInput(productId: Id, quantity: int, unitCost: Money)

  datatype PurchaseInput = PurchaseInput(
    supplierName: string,
    supplierContact: Option<string>,
    items: seq<PurchaseItemInput>,
    discount: Money,
    tax: Money)

  /** A stored purchase item row. */
  datatype PurchaseItem = PurchaseItem(id: Id, productId: Id, quantity: int, unitCost: Money, total: Money)

  /** A stored purchase order with its item rows. */
  datatype Purchase = Purchase(
    id: Id,
    purchaseOrderNumber: string,
    supplierName: string,
    supplierContact: Option<string>,
    subtotal: Money,
    discount: Money,
    tax: Money,
    total: Money,
    status: PurchaseStatus,
    createdById: Id,
    createdAt: int,
    items: seq<PurchaseItem>)

  /** `quantity * unitCost`. */
  function ItemCost(quantity: int, unitCost: Money): Money {
    quantity as real * unitCost
  }

  function Subtotal(items: seq<PurchaseItemInput>): Money
    decreases |items|
  {
    if |items| == 0 then 0.0 else ItemCost(items[0].quantity, items[0].unitCost) + Subtotal(items[1..])
  }

  /** The stored row for one item. */
  function ItemRow(id: Id, item: PurchaseItemInput): PurchaseItem {
    PurchaseItem(id, item.productId, item.quantity, item.unitCost, ItemCost(item.quantity, item.unitCost))
  }

  /** The item rows an order stores, in request order. */
  function ItemRows(itemIds: seq<Id>, items: seq<PurchaseItemInput>): (r: seq<PurchaseItem>)
    requires |itemIds| == |items|
    ensures |r| == |items|
    decreases |items|
  {
    if |items| == 0 then [] else [ItemRow(itemIds[0], items[0])] + ItemRows(itemIds[1..], items[1..])
  }

  function RowsTotal(rows: seq<PurchaseItem>): Money
    decreases |rows|
  {
    if |rows| == 0 then 0.0 else rows[0].total + RowsTotal(rows[1..])
  }

  /** Each stored row keeps its item's product and quantity and costs
      quantity times unit cost, and the rows add up to the subtotal. */
  lemma {:induction false} RowsAddUpToSubtotal(itemIds: seq<Id>, items: seq<PurchaseItemInput>)
    requires |itemIds| == |items|
    ensures forall k :: 0 <= k < |items| ==>
              ItemRows(itemIds, items)[k].total == ItemCost(items[k].quantity, items[k].unitCost)
              && ItemRows(itemIds, items)[k].productId == items[k].productId
              && ItemRows(itemIds, items)[k].quantity == items[k].quantity
    ensures RowsTotal(ItemRows(itemIds, items)) == Subtotal(items)
    decreases |items|
  {
    if |items| > 0 {
      RowsAddUpToSubtotal(itemIds[1..], items[1..]);
      var rows := ItemRows(itemIds, items);
      assert rows[1..] == ItemRows(itemIds[1..], items[1..]);
      forall k | 1 <= k < |items|
        ensures rows[k] == ItemRows(itemIds[1..], items[1..])[k - 1] && items[k] == items[1..][k - 1]
      {
      }
    }
  }

  /** Every item names a product of the table. */
  predicate AllKnown(products: seq<Product>, items: seq<PurchaseItemInput>) {
    forall k :: 0 <= k < |items| ==> ProductIndex(products, items[k].productId).Some?
  }

  /** The stock updates a receipt issues: plus each item's quantity. */
  function Incoming(items: seq<PurchaseItem>): (r: seq<StockChange>)
    ensures |r| == |items|
    ensures forall k :: 0 <= k < |items| ==> r[k] == StockChange(items[k].productId, items[k].quantity)
  {
    seq(|items|, k requires 0 <= k < |items| => StockChange(items[k].productId, items[k].quantity))
  }

  /** The status test and transition of `receivePurchase`, on one order. */
  function Receipt(p: Purchase): (r: Result<Purchase>)
    ensures r.Ok? <==> p.status == Pending
    ensures r.Ok? ==> r.value == p.(status := Received)
    ensures r.Err? ==> r.error == ServerError("Purchase is not in pending status")
  {
    if p.status != Pending then Err(ServerError("Purchase is not in pending status"))
    else Ok(p.(status := Received))
  }

  /** Receiving is not repeatable: the order a receipt returns cannot be
      received again, so its stock is raised at most once. */
  lemma ReceivingTwiceFails(p: Purchase)
    ensures Receipt(p).Ok? ==> Receipt(Receipt(p).value).Err?
    ensures Receipt(p).Ok? ==> Receipt(p).value.items == p.items
  {
  }

  function PurchaseCreatedAt(p: Purchase): int {
    p.createdAt
  }

  /** The order number the generator reads (the newest order's). */
  function NewestOrderNumber(purchases: seq<Purchase>): Option<string> {
    match NewestIndex(purchases, PurchaseCreatedAt)
    case None => None
    case Some(k) => Some(purchases[k].purchaseOrderNumber)
  }

  /** The order `create` stores once every product is found. */
  function PurchaseRecord(id: Id, number: string, input: PurchaseInput, createdById: Id, itemIds: seq<Id>, now: int)
    : (p: Purchase)
    requires |itemIds| == |input.items|
    ensures p.subtotal == Subtotal(input.items) && p.total == p.subtotal - p.discount + p.tax
    ensures p.status == Pending && p.purchaseOrderNumber == number
    ensures p.supplierName == input.supplierName && p.supplierContact == input.supplierContact
  {
    var subtotal := Subtotal(input.items);
    Purchase(id, number, input.supplierName, input.supplierContact, subtotal, input.discount, input.tax,
             subtotal - input.discount + input.tax, Pending, createdById, now, ItemRows(itemIds, input.items))
  }

  /** Where `findOne` finds the order with primary key `id`. */
  function PurchaseIndex(purchases: seq<Purchase>, id: Id): (r: Option<nat>)
    ensures r.Some? ==> r.value < |purchases| && purchases[r.value].id == id
    ensures r.None? <==> forall k :: 0 <= k < |purchases| ==> purchases[k].id != id
  {
    FirstIndex(purchases, (p: Purchase) => p.id == id)
  }

  class PurchasesService {
    const catalog: ProductCatalog
    var purchases: seq<Purchase>

    /** Every stored order's total is its subtotal less discount plus tax. */
    ghost predicate Valid()
      reads this, catalog
    {
      catalog.Valid()
      && forall k :: 0 <= k < |purchases| ==>
           purchases[k].total == purchases[k].subtotal - purchases[k].discount + purchases[k].tax
    }

    constructor (catalog: ProductCatalog)
      requires catalog.Valid()
      ensures Valid() && this.catalog == catalog && purchases == []
    {
      this.catalog := catalog;
      purchases := [];
    }

    /** `findOne`: the order with its items, or NotFound. */
    function FindOne(id: Id): (r: Result<Purchase>)
      reads this
      ensures r.Ok? <==> exists k :: 0 <= k < |purchases| && purchases[k].id == id
      ensures r.Ok? ==> r.value in purchases && r.value.id == id
      ensures r.Err? ==> r.error == NotFound("Purchase")
    {
      match PurchaseIndex(purchases, id)
      case Some(k) => Ok(purchases[k])
      case None => Err(NotFound("Purchase"))
    }

    /** The item loop of `create`: per item, `findOne` on its product, then
        the item cost is added up and the row kept. Nothing is written. */
    method CostItems(items: seq<PurchaseItemInput>, itemIds: seq<Id>)
      returns (failure: Option<Error>, subtotal: Money, rows: seq<PurchaseItem>)
      requires |itemIds| == |items|
      ensures failure.None? <==> AllKnown(catalog.products, items)
      ensures failure.Some? ==> failure == Some(NotFound("Product"))
      ensures failure.None? ==> subtotal == Subtotal(items) && rows == ItemRows(itemIds, items)
    {
      subtotal := 0.0;
      rows := [];
      var i := 0;
      while i < |items|
        invariant 0 <= i <= |items|
        invariant AllKnown(catalog.products, items[..i])
        invariant subtotal + Subtotal(items[i..]) == Subtotal(items)
        invariant rows + ItemRows(itemIds[i..], items[i..]) == ItemRows(itemIds, items)
      {
        var item := items[i];
        assert items[i..][0] == item && items[i..][1..] == items[i + 1..];
        assert itemIds[i..][0] == itemIds[i] && itemIds[i..][1..] == itemIds[i + 1..];
        var found := catalog.FindOne(item.productId);
        if found.Err? {
          return Some(found.error), subtotal, rows;
        }
        var itemTotal := ItemCost(item.quantity, item.unitCost);
        subtotal := subtotal + itemTotal;
        var row := PurchaseItem(itemIds[i], item.productId, item.quantity, item.unitCost, itemTotal);
        ghost var later := ItemRows(itemIds[i + 1..], items[i + 1..]);
        assert ItemRows(itemIds[i..], items[i..]) == [row] + later;
        assert (rows + [row]) + later == rows + ([row] + later);
        rows := rows + [row];
        assert items[..i + 1] == items[..i] + [item];
        i := i + 1;
      }
      assert items[..i] == items;
      failure := None;
    }

    /** `create`: an unknown product fails the call and nothing is stored;
        otherwise one pending order is appended. `today` and `now` are the
        clock readings, `purchaseId` and `itemIds` the new rows' keys. */
    method Create(input: PurchaseInput, createdById: Id, purchaseId: Id, itemIds: seq<Id>, today: CalendarDate, now: int)
      returns (r: Result<Purchase>)
      requires Valid() && |itemIds| == |input.items|
      modifies this
      ensures Valid()
      ensures !AllKnown(catalog.products, input.items) ==> r == Err(NotFound("Product")) && purchases == old(purchases)
      ensures AllKnown(catalog.products, input.items) ==>
                r == Ok(PurchaseRecord(purchaseId, GenerateNumber(PurchaseOrderPrefix, today, NewestOrderNumber(old(purchases))),
                                       input, createdById, itemIds, now))
                && purchases == old(purchases) + [r.value]
    {
      var failure, subtotal, rows := CostItems(input.items, itemIds);
      if failure.Some? {
        return Err(failure.value);
      }
      var total := subtotal - input.discount + input.tax;
      var number := GenerateNumber(PurchaseOrderPrefix, today, NewestOrderNumber(purchases));
      var purchase := Purchase(purchaseId, number, input.supplierName, input.supplierContact, subtotal,
                               input.discount, input.tax, total, Pending, createdById, now, rows);
      assert purchase == PurchaseRecord(purchaseId, number, input, createdById, itemIds, now);
      var before := purchases;
      purchases := purchases + [purchase];
      forall k | 0 <= k < |purchases|
        ensures purchases[k].total == purchases[k].subtotal - purchases[k].discount + purchases[k].tax
      {
        if k < |before| {
          assert purchases[k] == before[k];
        }
      }
      return Ok(purchase);
    }

    /** `receivePurchase`: NotFound for an unknown order, a refusal unless
        it is pending, otherwise each item's stock is raised in turn and the
        order becomes received. An unknown product stops the loop with the
        earlier increments kept and the order still pending. */
    method Receive(id: Id) returns (r: Result<Purchase>)
      requires Valid()
      modifies this, catalog
      ensures Valid()
      ensures match PurchaseIndex(old(purchases), id)
        case None => r == Err(NotFound("Purchase")) && purchases == old(purchases)
                     && catalog.products == old(catalog.products)
        case Some(k) =>
          var p := old(purchases)[k];
          if Receipt(p).Err? then r == Err(Receipt(p).error) && purchases == old(purchases)
                                  && catalog.products == old(catalog.products)
          else
            var run := ApplyChanges(old(catalog.products), Incoming(p.items));
            catalog.products == run.products
            && (run.failure.Some? ==> r == Err(run.failure.value) && purchases == old(purchases))
            && (run.failure.None? ==> r == Receipt(p) && purchases == old(purchases)[k := Receipt(p).value])
    {
      var k := PurchaseIndex(purchases, id);
      if k.None? {
        return Err(NotFound("Purchase"));
      }
      var purchase := purchases[k.value];
      if purchase.status != Pending {
        return Err(ServerError("Purchase is not in pending status"));
      }
      var failure := catalog.UpdateStocks(Incoming(purchase.items));
      if failure.Some? {
        return Err(failure.value);
      }
      purchase := purchase.(status := Received);
      purchases := purchases[k.value := purchase];
      return Ok(purchase);
    }
  }

  /** A completed receipt raises each product's stock by exactly the units
      the order's items bring in (never less than before when every
      quantity is at least one) and changes nothing else. */
  lemma ReceiptRaisesStock(products: seq<Product>, p: Purchase, j: nat)
    requires UniqueIds(products) && j < |products|
    requires forall k :: 0 <= k < |p.items| ==> p.items[k].quantity >= 1
    requires ApplyChanges(products, Incoming(p.items)).failure.None?
    ensures ApplyChanges(products, Incoming(p.items)).products[j]
         == products[j].(stock := products[j].stock + QuantityFor(products[j].id, Incoming(p.items)))
    ensures ApplyChanges(products, Incoming(p.items)).products[j].stock >= products[j].stock
  {
    ApplyChangesPerProduct(products, Incoming(p.items), j);
    IncomingNeverLowersStock(products[j].id, Incoming(p.items));
  }
}
