/** Customer returns (`SaleReturnsService`): a return is raised against a
    completed sale, each line checked against the sale's item it names, and
    stored pending with a `RET-YYYYMMDD-NNNN` number; it is then approved
    (the returned units go back into stock), rejected, or, once approved,
    completed. */
module SaleReturns {
  import opened Common
  import opened Numbering
  import opened Products
  import Sales

  datatype ReturnStatus = Pending | Approved | Rejected | Completed

  datatype ReturnReason = Defective | WrongItem | CustomerChangeMind | Damaged | Expired | Other

  datatype ReturnItemInput = ReturnItemInput(
    originalSaleItemId: Id,
    productId: Id,
    quantity: int,
    unitPrice: Money,
    condition: Option<string>)

  datatype ReturnInput = ReturnInput(
    originalSaleId: Id,
    reason: ReturnReason,
    notes: Option<string>,
    items: seq<ReturnItemInput>)

  /** A stored return line. */
  datatype ReturnItem = ReturnItem(
    id: Id,
    originalSaleItemId: Id,
    productId: Id,
    quantity: int,
    unitPrice: Money,
    total: Money,
    condition: Option<string>)

  /** A stored return with its lines. */
  datatype SaleReturn = SaleReturn(
    id: Id,
    returnNumber: string,
    originalSaleId: Id,
    reason: ReturnReason,
    notes: Option<string>,
    totalAmount: Money,
    refundAmount: Money,
    status: ReturnStatus,
    processedById: Id,
    approvedById: Option<Id>,
    approvedAt: Option<int>,
    createdAt: int,
    items: seq<ReturnItem>)

  /** `quantity * unitPrice`. */
  function LineTotal(quantity: int, unitPrice: Money): Money {
    quantity as real * unitPrice
  }

  /** Where `originalSale.items.find` finds the sale item with key `id`. */
  function SaleItemIndex(items: seq<Sales.SaleItem>, id: Id): (r: Option<nat>)
    ensures r.Some? ==> r.value < |items| && items[r.value].id == id
    ensures r.None? <==> forall k :: 0 <= k < |items| ==> items[k].id != id
  {
    FirstIndex(items, (si: Sales.SaleItem) => si.id == id)
  }

  /** The check on one return line: it must name an item of the sale and
      return no more than that item's quantity. */
  function LineCheck(saleItems: seq<Sales.SaleItem>, item: ReturnItemInput): (r: Option<Error>)
    ensures r.None? <==> match SaleItemIndex(saleItems, item.originalSaleItemId)
                         case None => false
                         case Some(k) => item.quantity <= saleItems[k].quantity
    ensures SaleItemIndex(saleItems, item.originalSaleItemId).None? ==> r == Some(ItemNotFound(item.originalSaleItemId))
    ensures r.Some? && SaleItemIndex(saleItems, item.originalSaleItemId).Some?
            ==> r == Some(QuantityExceedsOriginal(saleItems[SaleItemIndex(saleItems, item.originalSaleItemId).value].productId))
  {
    match SaleItemIndex(saleItems, item.originalSaleItemId)
    case None => Some(ItemNotFound(item.originalSaleItemId))
    case Some(k) =>
      if item.quantity > saleItems[k].quantity then Some(QuantityExceedsOriginal(saleItems[k].productId)) else None
  }

  /** The first failing line's error, in request order. */
  function FirstFailure(saleItems: seq<Sales.SaleItem>, items: seq<ReturnItemInput>): Option<Error>
    decreases |items|
  {
    if |items| == 0 then None
    else match LineCheck(saleItems, items[0])
      case Some(e) => Some(e)
      case None => FirstFailure(saleItems, items[1..])
  }

  /** The lines pass iff every line passes on its own. */
  lemma {:induction false} AllLinesPass(saleItems: seq<Sales.SaleItem>, items: seq<ReturnItemInput>)
    ensures FirstFailure(saleItems, items).None?
        <==> forall k :: 0 <= k < |items| ==> LineCheck(saleItems, items[k]).None?
    decreases |items|
  {
    if |items| > 0 {
      var rest := items[1..];
      assert forall k :: 1 <= k < |items| ==> items[k] == rest[k - 1];
      if LineCheck(saleItems, items[0]).None? {
        AllLinesPass(saleItems, rest);
      }
    }
  }

  /** A failure is the error of a failing line with every earlier line
      passing. */
  lemma {:induction false} FirstFailureIsFirst(saleItems: seq<Sales.SaleItem>, items: seq<ReturnItemInput>)
    requires FirstFailure(saleItems, items).Some?
    ensures exists k :: 0 <= k < |items| && LineCheck(saleItems, items[k]) == FirstFailure(saleItems, items)
                        && forall j :: 0 <= j < k ==> LineCheck(saleItems, items[j]).None?
    decreases |items|
  {
    var rest := items[1..];
    if LineCheck(saleItems, items[0]).Some? {
      assert LineCheck(saleItems, items[0]) == FirstFailure(saleItems, items);
    } else {
      FirstFailureIsFirst(saleItems, rest);
      var k :| 0 <= k < |rest| && LineCheck(saleItems, rest[k]) == FirstFailure(saleItems, rest)
               && forall j :: 0 <= j < k ==> LineCheck(saleItems, rest[j]).None?;
      assert items[k + 1] == rest[k];
      forall j | 0 <= j < k + 1
        ensures LineCheck(saleItems, items[j]).None?
      {
        if j > 0 {
          assert items[j] == rest[j - 1];
        }
      }
      assert LineCheck(saleItems, items[k + 1]) == FirstFailure(saleItems, items);
    }
  }

  /** The check is per line and not cumulative: two lines that each return
      the whole quantity of the same sale item pass together, so twice the
      units sold can be returned. */
  lemma LinesAreCheckedAlone(saleItems: seq<Sales.SaleItem>, line: ReturnItemInput, k: nat)
    requires SaleItemIndex(saleItems, line.originalSaleItemId) == Some(k)
    requires line.quantity == saleItems[k].quantity >= 1
    ensures FirstFailure(saleItems, [line, line]) == None
    ensures line.quantity + line.quantity > saleItems[k].quantity
  {
    assert LineCheck(saleItems, line) == None;
    assert [line][1..] == [];
    assert FirstFailure(saleItems, [line]) == None;
    assert [line, line][1..] == [line];
  }

  function ItemsTotal(items: seq<ReturnItemInput>): Money
    decreases |items|
  {
    if |items| == 0 then 0.0 else LineTotal(items[0].quantity, items[0].unitPrice) + ItemsTotal(items[1..])
  }

  /** The stored line for one request line; the product id is taken from
      the request as given, not from the sale item. */
  function ReturnRow(id: Id, item: ReturnItemInput): ReturnItem {
    ReturnItem(id, item.originalSaleItemId, item.productId, item.quantity, item.unitPrice,
               LineTotal(item.quantity, item.unitPrice), item.condition)
  }

  function ReturnRows(itemIds: seq<Id>, items: seq<ReturnItemInput>): (r: seq<ReturnItem>)
    requires |itemIds| == |items|
    ensures |r| == |items|
    decreases |items|
  {
    if |items| == 0 then [] else [ReturnRow(itemIds[0], items[0])] + ReturnRows(itemIds[1..], items[1..])
  }

  function RowsTotal(rows: seq<ReturnItem>): Money
    decreases |rows|
  {
    if |rows| == 0 then 0.0 else rows[0].total + RowsTotal(rows[1..])
  }

  /** Every stored line keeps its request line's product and quantity and
      is worth quantity times unit price, and the lines add up to the
      return's total. */
  lemma {:induction false} RowsAddUpToTotal(itemIds: seq<Id>, items: seq<ReturnItemInput>)
    requires |itemIds| == |items|
    ensures forall k :: 0 <= k < |items| ==>
              ReturnRows(itemIds, items)[k].total == LineTotal(items[k].quantity, items[k].unitPrice)
              && ReturnRows(itemIds, items)[k].productId == items[k].productId
              && ReturnRows(itemIds, items)[k].quantity == items[k].quantity
    ensures RowsTotal(ReturnRows(itemIds, items)) == ItemsTotal(items)
    decreases |items|
  {
    if |items| > 0 {
      RowsAddUpToTotal(itemIds[1..], items[1..]);
      var rows := ReturnRows(itemIds, items);
      assert rows[1..] == ReturnRows(itemIds[1..], items[1..]);
      forall k | 1 <= k < |items|
        ensures rows[k] == ReturnRows(itemIds[1..], items[1..])[k - 1] && items[k] == items[1..][k - 1]
      {
      }
    }
  }

  /** What every stored return satisfies: its total is the sum of its
      lines, every line returns at least one unit, it carries an approver
      exactly when it has left pending, and a refund only once approved. */
  predicate WellFormed(r: SaleReturn) {
    r.totalAmount == RowsTotal(r.items)
    && (forall k :: 0 <= k < |r.items| ==> r.items[k].quantity >= 1)
    && (r.status == Pending <==> r.approvedById.None?)
    && (r.status == Pending <==> r.approvedAt.None?)
    && (r.status == Pending || r.status == Rejected ==> r.refundAmount == 0.0)
  }

  /** The return `create` stores once the sale and every line pass. */
  function ReturnRecord(id: Id, number: string, input: ReturnInput, processedById: Id, itemIds: seq<Id>, now: int)
    : (r: SaleReturn)
    requires |itemIds| == |input.items|
    requires forall k :: 0 <= k < |input.items| ==> input.items[k].quantity >= 1
    ensures WellFormed(r) && r.status == Pending && r.returnNumber == number
    ensures r.totalAmount == ItemsTotal(input.items) && r.refundAmount == 0.0
    ensures r.originalSaleId == input.originalSaleId && r.notes == input.notes
  {
    RowsAddUpToTotal(itemIds, input.items);
    SaleReturn(id, number, input.originalSaleId, input.reason, input.notes, ItemsTotal(input.items), 0.0,
               Pending, processedById, None, None, now, ReturnRows(itemIds, input.items))
  }

  /** What `create` refuses a sale for: anything but a completed sale,
      then the first failing line. */
  function SaleCheck(sale: Sales.Sale, items: seq<ReturnItemInput>): (r: Option<Error>)
    ensures sale.status != Sales.Completed ==> r == Some(InvalidStatus("Can only return completed sales"))
    ensures sale.status == Sales.Completed ==> r == FirstFailure(sale.items, items)
  {
    if sale.status != Sales.Completed then Some(InvalidStatus("Can only return completed sales"))
    else FirstFailure(sale.items, items)
  }

  /** `saleReturn.notes || ""`. */
  function OrEmpty(notes: Option<string>): string {
    match notes
    case None => ""
    case Some(s) => s
  }

  /** The approval of one return: refused unless pending; otherwise it
      becomes approved with the refund, the approver and the time, and
      non-empty approval notes are appended on a new line. */
  function Approval(r: SaleReturn, refundAmount: Money, notes: Option<string>, approvedById: Id, now: int)
    : (a: Result<SaleReturn>)
    ensures a.Ok? <==> r.status == Pending
    ensures a.Err? ==> a.error == InvalidStatus("Can only approve pending returns")
    ensures a.Ok? ==> a.value.status == Approved && a.value.refundAmount == refundAmount
                      && a.value.approvedById == Some(approvedById) && a.value.approvedAt == Some(now)
                      && a.value.items == r.items && a.value.totalAmount == r.totalAmount
    ensures a.Ok? && notes.Some? && notes.value != ""
            ==> a.value.notes == Some(OrEmpty(r.notes) + "\nApproval Notes: " + notes.value)
    ensures a.Ok? && (notes.None? || notes.value == "") ==> a.value.notes == r.notes
  {
    if r.status != Pending then Err(InvalidStatus("Can only approve pending returns"))
    else
      var approved := r.(status := Approved, refundAmount := refundAmount, approvedById := Some(approvedById),
                         approvedAt := Some(now));
      if notes.Some? && notes.value != "" then
        Ok(approved.(notes := Some(OrEmpty(r.notes) + "\nApproval Notes: " + notes.value)))
      else Ok(approved)
  }

  /** The rejection of one return: refused unless pending; otherwise it
      becomes rejected with the approver and the time, and the reason is
      always appended to the notes on a new line. */
  function Rejection(r: SaleReturn, reason: string, approvedById: Id, now: int): (a: Result<SaleReturn>)
    ensures a.Ok? <==> r.status == Pending
    ensures a.Err? ==> a.error == InvalidStatus("Can only reject pending returns")
    ensures a.Ok? ==> a.value.status == Rejected && a.value.approvedById == Some(approvedById)
                      && a.value.approvedAt == Some(now) && a.value.refundAmount == r.refundAmount
                      && a.value.notes == Some(OrEmpty(r.notes) + "\nRejection Reason: " + reason)
  {
    if r.status != Pending then Err(InvalidStatus("Can only reject pending returns"))
    else Ok(r.(status := Rejected, approvedById := Some(approvedById), approvedAt := Some(now),
               notes := Some(OrEmpty(r.notes) + "\nRejection Reason: " + reason)))
  }

  /** The completion of one return: refused unless approved. */
  function Completion(r: SaleReturn): (a: Result<SaleReturn>)
    ensures a.Ok? <==> r.status == Approved
    ensures a.Err? ==> a.error == InvalidStatus("Can only complete approved returns")
    ensures a.Ok? ==> a.value == r.(status := Completed)
  {
    if r.status != Approved then Err(InvalidStatus("Can only complete approved returns"))
    else Ok(r.(status := Completed))
  }

  /** The three workflow calls on a stored return. */
  datatype Action =
    | Approve(refundAmount: Money, approvalNotes: Option<string>, approverId: Id, approvedTime: int)
    | Reject(rejectReason: string, rejecterId: Id, rejectedTime: int)
    | Complete

  function Step(r: SaleReturn, action: Action): Result<SaleReturn> {
    match action
    case Approve(amount, notes, approver, at) => Approval(r, amount, notes, approver, at)
    case Reject(reason, approver, at) => Rejection(r, reason, approver, at)
    case Complete => Completion(r)
  }

  /** The only status changes are pending to approved or rejected and
      approved to completed; rejected and completed returns admit no call.
      Every accepted call keeps a return well formed and its lines, and
      only ever appends to the notes. */
  lemma StepTransitions(r: SaleReturn, action: Action)
    requires WellFormed(r)
    ensures Step(r, action).Ok? ==>
              (r.status == Pending && Step(r, action).value.status == Approved && action.Approve?)
              || (r.status == Pending && Step(r, action).value.status == Rejected && action.Reject?)
              || (r.status == Approved && Step(r, action).value.status == Completed && action.Complete?)
    ensures r.status == Rejected || r.status == Completed ==> Step(r, action).Err?
    ensures Step(r, action).Ok? ==> WellFormed(Step(r, action).value) && Step(r, action).value.items == r.items
    ensures Step(r, action).Ok? ==> StartsWith(OrEmpty(Step(r, action).value.notes), OrEmpty(r.notes))
  {
    match action
    case Approve(amount, notes, approver, at) =>
      if r.status == Pending && notes.Some? && notes.value != "" {
        StartsWithConcat(OrEmpty(r.notes), "\nApproval Notes: " + notes.value);
      } else if r.status == Pending {
        StartsWithConcat(OrEmpty(r.notes), "");
      }
    case Reject(reason, approver, at) =>
      StartsWithConcat(OrEmpty(r.notes), "\nRejection Reason: " + reason);
    case Complete =>
      StartsWithConcat(OrEmpty(r.notes), "");
  }

  /** The status after a series of calls, each refused call leaving the
      return as it was. */
  function Run(r: SaleReturn, actions: seq<Action>): SaleReturn
    decreases |actions|
  {
    if |actions| == 0 then r
    else match Step(r, actions[0])
      case Ok(next) => Run(next, actions[1..])
      case Err(_) => Run(r, actions[1..])
  }

  /** How many calls of a series are accepted approvals, each of which puts
      the returned units back into stock. */
  function Approvals(r: SaleReturn, actions: seq<Action>): nat
    decreases |actions|
  {
    if |actions| == 0 then 0
    else match Step(r, actions[0])
      case Ok(next) => (if actions[0].Approve? then 1 else 0) + Approvals(next, actions[1..])
      case Err(_) => Approvals(r, actions[1..])
  }

  /** Stock is given back at most once per return: whatever the calls, at
      most one approval is accepted, and none unless it starts pending. */
  lemma {:induction false} ApprovedAtMostOnce(r: SaleReturn, actions: seq<Action>)
    requires WellFormed(r)
    ensures Approvals(r, actions) <= (if r.status == Pending then 1 else 0)
    decreases |actions|
  {
    if |actions| > 0 {
      StepTransitions(r, actions[0]);
      match Step(r, actions[0])
      case Ok(next) => ApprovedAtMostOnce(next, actions[1..]);
      case Err(_) => ApprovedAtMostOnce(r, actions[1..]);
    }
  }

  /** A rejected return stays rejected, and a pending return that ends
      approved or completed went through exactly one approval; every
      return stays well formed along the way. */
  lemma {:induction false} CompletedWasApproved(r: SaleReturn, actions: seq<Action>)
    requires WellFormed(r)
    ensures r.status == Rejected ==> Run(r, actions).status == Rejected
    ensures r.status == Pending && Run(r, actions).status in {Approved, Completed} ==> Approvals(r, actions) == 1
    ensures WellFormed(Run(r, actions))
    decreases |actions|
  {
    if |actions| > 0 {
      StepTransitions(r, actions[0]);
      match Step(r, actions[0])
      case Ok(next) =>
        CompletedWasApproved(next, actions[1..]);
        ApprovedAtMostOnce(next, actions[1..]);
      case Err(_) => CompletedWasApproved(r, actions[1..]);
    }
  }

  /** The stock updates an approval issues: plus each line's quantity, for
      the product the line names. */
  function Restock(items: seq<ReturnItem>): (r: seq<StockChange>)
    ensures |r| == |items|
    ensures forall k :: 0 <= k < |items| ==> r[k] == StockChange(items[k].productId, items[k].quantity)
  {
    seq(|items|, k requires 0 <= k < |items| => StockChange(items[k].productId, items[k].quantity))
  }

  /** A completed restock raises each product's stock by exactly the units
      the return's lines name for it, never lowers one, and changes
      nothing else. */
  lemma RestockRaisesStock(products: seq<Product>, r: SaleReturn, j: nat)
    requires UniqueIds(products) && j < |products| && WellFormed(r)
    requires ApplyChanges(products, Restock(r.items)).failure.None?
    ensures ApplyChanges(products, Restock(r.items)).products[j]
         == products[j].(stock := products[j].stock + QuantityFor(products[j].id, Restock(r.items)))
    ensures ApplyChanges(products, Restock(r.items)).products[j].stock >= products[j].stock
  {
    ApplyChangesPerProduct(products, Restock(r.items), j);
    IncomingNeverLowersStock(products[j].id, Restock(r.items));
  }

  function ReturnCreatedAt(r: SaleReturn): int {
    r.createdAt
  }

  /** The return number the generator reads (the newest return's). */
  function NewestReturnNumber(saleReturns: seq<SaleReturn>): Option<string> {
    match NewestIndex(saleReturns, ReturnCreatedAt)
    case None => None
    case Some(k) => Some(saleReturns[k].returnNumber)
  }

  /** Where `findOne` finds the return with primary key `id`. */
  function ReturnIndex(saleReturns: seq<SaleReturn>, id: Id): (r: Option<nat>)
    ensures r.Some? ==> r.value < |saleReturns| && saleReturns[r.value].id == id
    ensures r.None? <==> forall k :: 0 <= k < |saleReturns| ==> saleReturns[k].id != id
  {
    FirstIndex(saleReturns, (sr: SaleReturn) => sr.id == id)
  }

  class SaleReturnsService {
    const sales: Sales.SalesService
    const catalog: ProductCatalog
    var saleReturns: seq<SaleReturn>

    ghost predicate Valid()
      reads this, catalog
    {
      catalog.Valid() && forall k :: 0 <= k < |saleReturns| ==> WellFormed(saleReturns[k])
    }

    constructor (sales: Sales.SalesService, catalog: ProductCatalog)
      requires catalog.Valid()
      ensures Valid() && this.sales == sales && this.catalog == catalog && saleReturns == []
    {
      this.sales := sales;
      this.catalog := catalog;
      saleReturns := [];
    }

    /** `findOne`: the return with its lines, or NotFound. */
    function FindOne(id: Id): (r: Result<SaleReturn>)
      reads this
      ensures r.Ok? <==> exists k :: 0 <= k < |saleReturns| && saleReturns[k].id == id
      ensures r.Ok? ==> r.value in saleReturns && r.value.id == id
      ensures r.Err? ==> r.error == NotFound("Sale return")
    {
      match ReturnIndex(saleReturns, id)
      case Some(k) => Ok(saleReturns[k])
      case None => Err(NotFound("Sale return"))
    }

    /** The line loop of `create`: each line is checked against the sale's
        items, and its value added up and its row kept. Nothing is written. */
    static method CheckLines(saleItems: seq<Sales.SaleItem>, items: seq<ReturnItemInput>, itemIds: seq<Id>)
      returns (failure: Option<Error>, totalAmount: Money, rows: seq<ReturnItem>)
      requires |itemIds| == |items|
      ensures failure == FirstFailure(saleItems, items)
      ensures failure.None? ==> totalAmount == ItemsTotal(items) && rows == ReturnRows(itemIds, items)
    {
      totalAmount := 0.0;
      rows := [];
      var i := 0;
      while i < |items|
        invariant 0 <= i <= |items|
        invariant FirstFailure(saleItems, items) == FirstFailure(saleItems, items[i..])
        invariant totalAmount + ItemsTotal(items[i..]) == ItemsTotal(items)
        invariant rows + ReturnRows(itemIds[i..], items[i..]) == ReturnRows(itemIds, items)
      {
        var item := items[i];
        assert items[i..][0] == item && items[i..][1..] == items[i + 1..];
        assert itemIds[i..][0] == itemIds[i] && itemIds[i..][1..] == itemIds[i + 1..];
        var found := SaleItemIndex(saleItems, item.originalSaleItemId);
        if found.None? {
          return Some(ItemNotFound(item.originalSaleItemId)), totalAmount, rows;
        }
        var original := saleItems[found.value];
        if item.quantity > original.quantity {
          return Some(QuantityExceedsOriginal(original.productId)), totalAmount, rows;
        }
        assert LineCheck(saleItems, item) == None;
        var itemTotal := LineTotal(item.quantity, item.unitPrice);
        totalAmount := totalAmount + itemTotal;
        var row := ReturnItem(itemIds[i], item.originalSaleItemId, item.productId, item.quantity,
                              item.unitPrice, itemTotal, item.condition);
        ghost var later := ReturnRows(itemIds[i + 1..], items[i + 1..]);
        assert ReturnRows(itemIds[i..], items[i..]) == [row] + later;
        assert (rows + [row]) + later == rows + ([row] + later);
        rows := rows + [row];
        i := i + 1;
      }
      failure := None;
    }

    /** `create`: the sale must exist and be completed and every line must
        pass; then one pending return is appended. `today` and `now` are
        the clock readings, `returnId` and `itemIds` the new rows' keys. */
    method Create(input: ReturnInput, processedById: Id, returnId: Id, itemIds: seq<Id>, today: CalendarDate, now: int)
      returns (r: Result<SaleReturn>)
      requires Valid() && |itemIds| == |input.items|
      requires forall k :: 0 <= k < |input.items| ==> input.items[k].quantity >= 1
      modifies this
      ensures Valid()
      ensures match sales.FindOne(input.originalSaleId)
        case Err(e) => r == Err(e) && saleReturns == old(saleReturns)
        case Ok(sale) =>
          if SaleCheck(sale, input.items).Some? then r == Err(SaleCheck(sale, input.items).value) && saleReturns == old(saleReturns)
          else r == Ok(ReturnRecord(returnId, GenerateNumber(SaleReturnPrefix, today, NewestReturnNumber(old(saleReturns))),
                                    input, processedById, itemIds, now))
               && saleReturns == old(saleReturns) + [r.value]
    {
      var found := sales.FindOne(input.originalSaleId);
      if found.Err? {
        return Err(found.error);
      }
      var sale := found.value;
      if sale.status != Sales.Completed {
        return Err(InvalidStatus("Can only return completed sales"));
      }
      var failure, totalAmount, rows := CheckLines(sale.items, input.items, itemIds);
      if failure.Some? {
        return Err(failure.value);
      }
      var number := GenerateNumber(SaleReturnPrefix, today, NewestReturnNumber(saleReturns));
      var saleReturn := SaleReturn(returnId, number, input.originalSaleId, input.reason, input.notes, totalAmount,
                                   0.0, Pending, processedById, None, None, now, rows);
      assert saleReturn == ReturnRecord(returnId, number, input, processedById, itemIds, now);
      saleReturns := saleReturns + [saleReturn];
      return Ok(saleReturn);
    }

    /** `approve`: NotFound for an unknown return, a refusal unless it is
        pending, otherwise each line's units go back into stock in turn and
        the return is approved. An unknown product stops the loop with the
        earlier increments kept and the return still pending. */
    method Approve(id: Id, refundAmount: Money, notes: Option<string>, approvedById: Id, now: int)
      returns (r: Result<SaleReturn>)
      requires Valid()
      modifies this, catalog
      ensures Valid()
      ensures match ReturnIndex(old(saleReturns), id)
        case None => r == Err(NotFound("Sale return")) && saleReturns == old(saleReturns)
                     && catalog.products == old(catalog.products)
        case Some(k) =>
          var sr := old(saleReturns)[k];
          var a := Approval(sr, refundAmount, notes, approvedById, now);
          if a.Err? then r == a && saleReturns == old(saleReturns) && catalog.products == old(catalog.products)
          else
            var run := ApplyChanges(old(catalog.products), Restock(sr.items));
            catalog.products == run.products
            && (run.failure.Some? ==> r == Err(run.failure.value) && saleReturns == old(saleReturns))
            && (run.failure.None? ==> r == a && saleReturns == old(saleReturns)[k := a.value])
    {
      var k := ReturnIndex(saleReturns, id);
      if k.None? {
        return Err(NotFound("Sale return"));
      }
      var saleReturn := saleReturns[k.value];
      if saleReturn.status != Pending {
        return Err(InvalidStatus("Can only approve pending returns"));
      }
      var failure := catalog.UpdateStocks(Restock(saleReturn.items));
      if failure.Some? {
        return Err(failure.value);
      }
      StepTransitions(saleReturn, Action.Approve(refundAmount, notes, approvedById, now));
      saleReturn := saleReturn.(status := Approved, refundAmount := refundAmount, approvedById := Some(approvedById),
                                approvedAt := Some(now));
      if notes.Some? && notes.value != "" {
        saleReturn := saleReturn.(notes := Some(OrEmpty(saleReturns[k.value].notes) + "\nApproval Notes: " + notes.value));
      }
      saleReturns := saleReturns[k.value := saleReturn];
      return Ok(saleReturn);
    }

    /** `reject`: NotFound for an unknown return, otherwise the rejection
        of the stored return, saved when accepted. */
    method Reject(id: Id, reason: string, approvedById: Id, now: int) returns (r: Result<SaleReturn>)
      requires Valid()
      modifies this
      ensures Valid()
      ensures match ReturnIndex(old(saleReturns), id)
        case None => r == Err(NotFound("Sale return")) && saleReturns == old(saleReturns)
        case Some(k) =>
          r == Rejection(old(saleReturns)[k], reason, approvedById, now)
          && saleReturns == (if r.Ok? then old(saleReturns)[k := r.value] else old(saleReturns))
    {
      var k := ReturnIndex(saleReturns, id);
      if k.None? {
        return Err(NotFound("Sale return"));
      }
      var saleReturn := saleReturns[k.value];
      if saleReturn.status != Pending {
        return Err(InvalidStatus("Can only reject pending returns"));
      }
      StepTransitions(saleReturn, Action.Reject(reason, approvedById, now));
      saleReturn := saleReturn.(status := Rejected, approvedById := Some(approvedById), approvedAt := Some(now),
                                notes := Some(OrEmpty(saleReturn.notes) + "\nRejection Reason: " + reason));
      saleReturns := saleReturns[k.value := saleReturn];
      return Ok(saleReturn);
    }

    /** `complete`: NotFound for an unknown return, otherwise the
        completion of the stored return, saved when accepted. */
    method Complete(id: Id) returns (r: Result<SaleReturn>)
      requires Valid()
      modifies this
      ensures Valid()
      ensures match ReturnIndex(old(saleReturns), id)
        case None => r == Err(NotFound("Sale return")) && saleReturns == old(saleReturns)
        case Some(k) =>
          r == Completion(old(saleReturns)[k])
          && saleReturns == (if r.Ok? then old(saleReturns)[k := r.value] else old(saleReturns))
    {
      var k := ReturnIndex(saleReturns, id);
      if k.None? {
        return Err(NotFound("Sale return"));
      }
      var saleReturn := saleReturns[k.value];
      if saleReturn.status != Approved {
        return Err(InvalidStatus("Can only complete approved returns"));
      }
      StepTransitions(saleReturn, Action.Complete);
      saleReturn := saleReturn.(status := Completed);
      saleReturns := saleReturns[k.value := saleReturn];
      return Ok(saleReturn);
    }
  }
}
