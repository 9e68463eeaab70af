/** Point-of-sale checkout (`SalesService.create`): each item's product is
    looked up, its current stock checked against the quantity and then
    decremented, one item at a time; then the total and change are worked
    out, an underpaid sale is refused, and a completed sale with an
    `INV-YYYYMMDD-NNNN` number and its item rows is stored. */
module Sales {
  import opened Common
  import opened Numbering
  import opened Products

  datatype SaleStatus = Pending | Completed | Cancelled | Returned

  datatype SaleItemInput = SaleItemInput(productId: Id, quantity: int, unitPrice: Money)

  datatype SaleInput = SaleInput(
    items: seq<SaleItemInput>,
    discount: Money,
    tax: Money,
    paid: Money,
    customerName: Option<string>,
    customerPhone: Option<string>)

  /** A stored sale item row. */
  datatype SaleItem = SaleItem(id: Id, productId: Id, quantity: int, unitPrice: Money, total: Money)

  /** A stored sale with its item rows. */
  datatype Sale = Sale(
    id: Id,
    invoiceNumber: string,
    subtotal: Money,
    discount: Money,
    tax: Money,
    total: Money,
    paid: Money,
    change: Money,
    customerName: Option<string>,
    customerPhone: Option<string>,
    cashierId: Id,
    status: SaleStatus,
    createdAt: int,
    items: seq<SaleItem>)

  /** `quantity * unitPrice`. */
  function LineTotal(quantity: int, unitPrice: Money): Money {
    quantity as real * unitPrice
  }

  function Subtotal(items: seq<SaleItemInput>): Money
    decreases |items|
  {
    if |items| == 0 then 0.0 else LineTotal(items[0].quantity, items[0].unitPrice) + Subtotal(items[1..])
  }

  /** The stored row for one item. */
  function ItemRow(id: Id, item: SaleItemInput): SaleItem {
    SaleItem(id, item.productId, item.quantity, item.unitPrice, LineTotal(item.quantity, item.unitPrice))
  }

  /** The item rows a sale stores, in request order. */
  function ItemRows(itemIds: seq<Id>, items: seq<SaleItemInput>): (r: seq<SaleItem>)
    requires |itemIds| == |items|
    ensures |r| == |items|
    decreases |items|
  {
    if |items| == 0 then [] else [ItemRow(itemIds[0], items[0])] + ItemRows(itemIds[1..], items[1..])
  }

  function RowsTotal(rows: seq<SaleItem>): Money
    decreases |rows|
  {
    if |rows| == 0 then 0.0 else rows[0].total + RowsTotal(rows[1..])
  }

  /** Each stored row's total is its quantity times its unit price, and the
      subtotal is the sum of the stored rows' totals. */
  lemma {:induction false} RowsAddUpToSubtotal(itemIds: seq<Id>, items: seq<SaleItemInput>)
    requires |itemIds| == |items|
    ensures forall k :: 0 <= k < |items| ==>
              ItemRows(itemIds, items)[k].total == LineTotal(items[k].quantity, items[k].unitPrice)
              && ItemRows(itemIds, items)[k].productId == items[k].productId
    ensures RowsTotal(ItemRows(itemIds, items)) == Subtotal(items)
    decreases |items|
  {
    if |items| > 0 {
      RowsAddUpToSubtotal(itemIds[1..], items[1..]);
      var rows := ItemRows(itemIds, items);
      assert rows[1..] == ItemRows(itemIds[1..], items[1..]);
      forall k | 1 <= k < |items|
        ensures rows[k] == ItemRows(itemIds[1..], items[1..])[k - 1] && items[k] == items[1..][k - 1]
      {
      }
    }
  }

  datatype SellRun = SellRun(products: seq<Product>, failure: Option<Error>)

  /** One pass of the item loop: look the product up, refuse if its
      current stock is below the quantity, otherwise decrement it. */
  function SellStep(products: seq<Product>, item: SaleItemInput): (r: SellRun)
    ensures |r.products| == |products|
  {
    match ProductIndex(products, item.productId)
    case None => SellRun(products, Some(NotFound("Product")))
    case Some(k) =>
      if products[k].stock < item.quantity then SellRun(products, Some(InsufficientStock(products[k].name)))
      else SellRun(AddStock(products, k, -item.quantity), None)
  }

  /** A pass fails with NotFound exactly when no product has the id, is
      refused for stock exactly when the product's stock is below the
      quantity, changes nothing when it fails, and otherwise takes the
      quantity off that one product. */
  lemma SellStepOutcome(products: seq<Product>, item: SaleItemInput)
    requires UniqueIds(products)
    ensures var r := SellStep(products, item);
            && (r.failure.Some? ==> r.products == products)
            && (r.failure == Some(NotFound("Product")) <==> forall k :: 0 <= k < |products| ==> products[k].id != item.productId)
            && (r.failure.None? <==> exists k :: 0 <= k < |products| && products[k].id == item.productId
                                                && products[k].stock >= item.quantity)
            && forall k :: 0 <= k < |products| && products[k].id == item.productId && r.failure.None?
                 ==> r.products == AddStock(products, k, -item.quantity)
  {
    match ProductIndex(products, item.productId)
    case None =>
    case Some(j) =>
      assert forall k :: 0 <= k < |products| && products[k].id == item.productId ==> k == j;
  }

  /** The item loop: one pass per item, stopping at the first refusal with
      the decrements already made kept. */
  function SellItems(products: seq<Product>, items: seq<SaleItemInput>): (r: SellRun)
    ensures |r.products| == |products|
    decreases |items|
  {
    if |items| == 0 then SellRun(products, None)
    else
      var step := SellStep(products, items[0]);
      if step.failure.Some? then step else SellItems(step.products, items[1..])
  }

  /** Units of product `id` the items ask for. */
  function Sold(id: Id, items: seq<SaleItemInput>): int
    decreases |items|
  {
    if |items| == 0 then 0
    else (if items[0].productId == id then items[0].quantity else 0) + Sold(id, items[1..])
  }

  /** A sale that gets through the item loop takes off every product
      exactly the units its items ask for, and changes nothing else. */
  lemma {:induction false} SellPerProduct(products: seq<Product>, items: seq<SaleItemInput>, k: nat)
    requires UniqueIds(products) && k < |products|
    requires SellItems(products, items).failure.None?
    ensures SellItems(products, items).products[k]
         == products[k].(stock := products[k].stock - Sold(products[k].id, items))
    decreases |items|
  {
    if |items| > 0 {
      var j := ProductIndex(products, items[0].productId).value;
      var next := AddStock(products, j, -items[0].quantity);
      assert SellStep(products, items[0]).products == next;
      StocksOnlySameIndex(products, next, products[k].id);
      assert next[k].id == products[k].id;
      SellPerProduct(next, items[1..], k);
    }
  }

  /** The stock check runs against the current, already decremented stock,
      so no product's stock is driven below zero. */
  lemma {:induction false} SellingKeepsStockNonNegative(products: seq<Product>, items: seq<SaleItemInput>)
    requires forall k :: 0 <= k < |products| ==> products[k].stock >= 0
    ensures forall k :: 0 <= k < |products| ==> SellItems(products, items).products[k].stock >= 0
    decreases |items|
  {
    if |items| > 0 {
      var step := SellStep(products, items[0]);
      if step.failure.None? {
        assert forall k :: 0 <= k < |products| ==> step.products[k].stock >= 0;
        SellingKeepsStockNonNegative(step.products, items[1..]);
      }
    }
  }

  /** A sale that gets through the item loop never sells more units of a
      product than it had, even when the product is listed several times. */
  lemma SaleNeverOversells(products: seq<Product>, items: seq<SaleItemInput>, k: nat)
    requires UniqueIds(products) && k < |products|
    requires forall j :: 0 <= j < |products| ==> products[j].stock >= 0
    requires SellItems(products, items).failure.None?
    ensures SellItems(products, items).products[k].stock == products[k].stock - Sold(products[k].id, items)
    ensures Sold(products[k].id, items) <= products[k].stock
  {
    SellPerProduct(products, items, k);
    SellingKeepsStockNonNegative(products, items);
  }

  function SaleCreatedAt(s: Sale): int {
    s.createdAt
  }

  /** The invoice number the generator reads (the newest sale's). */
  function NewestInvoiceNumber(sales: seq<Sale>): Option<string> {
    match NewestIndex(sales, SaleCreatedAt)
    case None => None
    case Some(k) => Some(sales[k].invoiceNumber)
  }

  /** The sale `create` stores once the item loop is through. */
  function SaleRecord(id: Id, invoiceNumber: string, input: SaleInput, cashierId: Id, itemIds: seq<Id>, now: int): (s: Sale)
    requires |itemIds| == |input.items|
    ensures s.total == s.subtotal - s.discount + s.tax && s.change == s.paid - s.total
    ensures s.subtotal == Subtotal(input.items) && s.status == Completed
  {
    var subtotal := Subtotal(input.items);
    var total := subtotal - input.discount + input.tax;
    Sale(id, invoiceNumber, subtotal, input.discount, input.tax, total, input.paid, input.paid - total,
         input.customerName, input.customerPhone, cashierId, Completed, now, ItemRows(itemIds, input.items))
  }

  class SalesService {
    const catalog: ProductCatalog
    var sales: seq<Sale>

    /** Every stored sale is completed and was paid in full. */
    ghost predicate Valid()
      reads this, catalog
    {
      catalog.Valid() && forall k :: 0 <= k < |sales| ==> sales[k].change >= 0.0 && sales[k].status == Completed
    }

    constructor (catalog: ProductCatalog)
      requires catalog.Valid()
      ensures Valid() && this.catalog == catalog && sales == []
    {
      this.catalog := catalog;
      sales := [];
    }

    /** `findOne`: the sale with its items, or NotFound. */
    function FindOne(id: Id): (r: Result<Sale>)
      reads this
      ensures r.Ok? <==> exists k :: 0 <= k < |sales| && sales[k].id == id
      ensures r.Ok? ==> r.value in sales && r.value.id == id
      ensures r.Err? ==> r.error == NotFound("Sale")
    {
      match FirstIndex(sales, (s: Sale) => s.id == id)
      case Some(k) => Ok(sales[k])
      case None => Err(NotFound("Sale"))
    }

    /** One pass of the item loop of `create`: look the product up, check
        its current stock, and decrement it. */
    method SellItem(item: SaleItemInput) returns (failure: Option<Error>)
      requires catalog.Valid()
      modifies catalog
      ensures catalog.Valid()
      ensures catalog.products == SellStep(old(catalog.products), item).products
      ensures failure == SellStep(old(catalog.products), item).failure
    {
      var found := catalog.FindOne(item.productId);
      if found.Err? {
        return Some(found.error);
      }
      if found.value.stock < item.quantity {
        return Some(InsufficientStock(found.value.name));
      }
      var _ := catalog.UpdateStock(item.productId, -item.quantity);
      return None;
    }

    /** The item loop of `create`: per item, one pass of `SellItem`, then
        the line total is added up and the row kept. */
    method SellAll(items: seq<SaleItemInput>, itemIds: seq<Id>)
      returns (failure: Option<Error>, subtotal: Money, rows: seq<SaleItem>)
      requires catalog.Valid() && |itemIds| == |items|
      modifies catalog
      ensures catalog.Valid()
      ensures catalog.products == SellItems(old(catalog.products), items).products
      ensures failure == SellItems(old(catalog.products), items).failure
      ensures failure.None? ==> subtotal == Subtotal(items) && rows == ItemRows(itemIds, items)
    {
      subtotal := 0.0;
      rows := [];
      var i := 0;
      while i < |items|
        invariant 0 <= i <= |items|
        invariant catalog.Valid()
        invariant SellItems(old(catalog.products), items) == SellItems(catalog.products, items[i..])
        invariant subtotal + Subtotal(items[i..]) == Subtotal(items)
        invariant rows + ItemRows(itemIds[i..], items[i..]) == ItemRows(itemIds, items)
      {
        var item := items[i];
        assert items[i..][0] == item && items[i..][1..] == items[i + 1..];
        assert itemIds[i..][0] == itemIds[i] && itemIds[i..][1..] == itemIds[i + 1..];
        failure := SellItem(item);
        if failure.Some? {
          return;
        }
        var itemTotal := LineTotal(item.quantity, item.unitPrice);
        subtotal := subtotal + itemTotal;
        var row := SaleItem(itemIds[i], item.productId, item.quantity, item.unitPrice, itemTotal);
        ghost var later := ItemRows(itemIds[i + 1..], items[i + 1..]);
        assert ItemRows(itemIds[i..], items[i..]) == [row] + later;
        assert (rows + [row]) + later == rows + ([row] + later);
        rows := rows + [row];
        i := i + 1;
      }
      failure := None;
    }

    /** `create`; `itemIds` are the new item rows' keys, `today` and `now`
        the clock readings. The stock updates of the item loop stay applied
        whether or not the sale is then stored. */
    method Create(input: SaleInput, cashierId: Id, saleId: Id, itemIds: seq<Id>, today: CalendarDate, now: int)
      returns (r: Result<Sale>)
      requires Valid() && |itemIds| == |input.items|
      modifies this, catalog
      ensures Valid()
      ensures catalog.products == SellItems(old(catalog.products), input.items).products
      ensures SellItems(old(catalog.products), input.items).failure.Some?
              ==> r == Err(SellItems(old(catalog.products), input.items).failure.value) && sales == old(sales)
      ensures SellItems(old(catalog.products), input.items).failure.None? ==>
                var sale := SaleRecord(saleId, GenerateNumber(InvoicePrefix, today, NewestInvoiceNumber(old(sales))),
                                       input, cashierId, itemIds, now);
                if sale.change < 0.0 then r == Err(InsufficientPayment) && sales == old(sales)
                else r == Ok(sale) && sales == old(sales) + [sale]
    {
      var failure, subtotal, rows := SellAll(input.items, itemIds);
      if failure.Some? {
        return Err(failure.value);
      }
      var total := subtotal - input.discount + input.tax;
      var change := input.paid - total;
      if change < 0.0 {
        return Err(InsufficientPayment);
      }
      var invoiceNumber := GenerateNumber(InvoicePrefix, today, NewestInvoiceNumber(sales));
      var sale := Sale(saleId, invoiceNumber, subtotal, input.discount, input.tax, total, input.paid, change,
                       input.customerName, input.customerPhone, cashierId, Completed, now, rows);
      sales := sales + [sale];
      return Ok(sale);
    }
  }

  /** A sale is stored exactly when it clears the item loop and the amount
      paid covers subtotal - discount + tax; the stored change is then the
      non-negative overpayment. */
  lemma StoredSaleIsPaidInFull(id: Id, number: string, input: SaleInput, cashierId: Id, itemIds: seq<Id>, now: int)
    requires |itemIds| == |input.items|
    ensures var s := SaleRecord(id, number, input, cashierId, itemIds, now);
            (s.change >= 0.0 <==> input.paid >= Subtotal(input.items) - input.discount + input.tax)
            && RowsTotal(s.items) == s.subtotal
  {
    RowsAddUpToSubtotal(itemIds, input.items);
  }
}
