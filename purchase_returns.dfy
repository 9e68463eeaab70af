/** Returns to suppliers (`PurchaseReturnsService`): a return is raised
    against a received purchase order, each line checked against the
    order's item it names, and stored pending with a `PRET-YYYYMMDD-NNNN`
    number and the order's supplier; it is then approved (the returned
    units leave stock) or rejected, and an approved return is shipped and
    then completed. */
module PurchaseReturns {
  import opened Common
  import opened Numbering
  import opened Products
  import Purchases

  datatype ReturnStatus = Pending | Approved | Rejected | Shipped | Completed

  datatype ReturnReason = Defective | WrongItem | Damaged | Expired | QualityIssue | Overstock | Other

  datatype ReturnItemInput = ReturnItemInput(
    originalPurchaseItemId: Id,
    productId: Id,
    quantity: int,
    unitCost: Money,
    condition: Option<string>)

  datatype ReturnInput = ReturnInput(
    originalPurchaseId: Id,
    reason: ReturnReason,
    notes: Option<string>,
    items: seq<ReturnItemInput>)

  /** A stored return line. */
  datatype ReturnItem = ReturnItem(
    id: Id,
    originalPurchaseItemId: Id,
    productId: Id,
    quantity: int,
    unitCost: Money,
    total: Money,
    condition: Option<string>)

  /** A stored return with its lines. */
  datatype PurchaseReturn = PurchaseReturn(
    id: Id,
    returnNumber: string,
    originalPurchaseId: Id,
    supplierName: string,
    supplierContact: Option<string>,
    reason: ReturnReason,
    notes: Option<string>,
    totalAmount: Money,
    creditAmount: Money,
    status: ReturnStatus,
    createdById: Id,
    approvedById: Option<Id>,
    approvedAt: Option<int>,
    createdAt: int,
    items: seq<ReturnItem>)

  /** `quantity * unitCost`. */
  function LineTotal(quantity: int, unitCost: Money): Money {
    quantity as real * unitCost
  }

  /** Where `originalPurchase.items.find` finds the order item with key `id`. */
  function OrderItemIndex(items: seq<Purchases.PurchaseItem>, id: Id): (r: Option<nat>)
    ensures r.Some? ==> r.value < |items| && items[r.value].id == id
    ensures r.None? <==> forall k :: 0 <= k < |items| ==> items[k].id != id
  {
    FirstIndex(items, (pi: Purchases.PurchaseItem) => pi.id == id)
  }

  /** The check on one return line: it must name an item of the order and
      return no more than that item's quantity. */
  function LineCheck(orderItems: seq<Purchases.PurchaseItem>, item: ReturnItemInput): (r: Option<Error>)
    ensures r.None? <==> match OrderItemIndex(orderItems, item.originalPurchaseItemId)
                         case None => false
                         case Some(k) => item.quantity <= orderItems[k].quantity
    ensures OrderItemIndex(orderItems, item.originalPurchaseItemId).None?
            ==> r == Some(ItemNotFound(item.originalPurchaseItemId))
    ensures r.Some? && OrderItemIndex(orderItems, item.originalPurchaseItemId).Some?
            ==> r == Some(QuantityExceedsOriginal(orderItems[OrderItemIndex(orderItems, item.originalPurchaseItemId).value].productId))
  {
    match OrderItemIndex(orderItems, item.originalPurchaseItemId)
    case None => Some(ItemNotFound(item.originalPurchaseItemId))
    case Some(k) =>
      if item.quantity > orderItems[k].quantity then Some(QuantityExceedsOriginal(orderItems[k].productId)) else None
  }

  /** The first failing line's error, in request order. */
  function FirstFailure(orderItems: seq<Purchases.PurchaseItem>, items: seq<ReturnItemInput>): Option<Error>
    decreases |items|
  {
    if |items| == 0 then None
    else match LineCheck(orderItems, items[0])
      case Some(e) => Some(e)
      case None => FirstFailure(orderItems, items[1..])
  }

  /** The lines pass iff every line passes on its own. */
  lemma {:induction false} AllLinesPass(orderItems: seq<Purchases.PurchaseItem>, items: seq<ReturnItemInput>)
    ensures FirstFailure(orderItems, items).None?
        <==> forall k :: 0 <= k < |items| ==> LineCheck(orderItems, items[k]).None?
    decreases |items|
  {
    if |items| > 0 {
      var rest := items[1..];
      assert forall k :: 1 <= k < |items| ==> items[k] == rest[k - 1];
      if LineCheck(orderItems, items[0]).None? {
        AllLinesPass(orderItems, rest);
      }
    }
  }

  /** A failure is the error of a failing line with every earlier line
      passing. */
  lemma {:induction false} FirstFailureIsFirst(orderItems: seq<Purchases.PurchaseItem>, items: seq<ReturnItemInput>)
    requires FirstFailure(orderItems, items).Some?
    ensures exists k :: 0 <= k < |items| && LineCheck(orderItems, items[k]) == FirstFailure(orderItems, items)
                        && forall j :: 0 <= j < k ==> LineCheck(orderItems, items[j]).None?
    decreases |items|
  {
    var rest := items[1..];
    if LineCheck(orderItems, items[0]).Some? {
      assert LineCheck(orderItems, items[0]) == FirstFailure(orderItems, items);
    } else {
      FirstFailureIsFirst(orderItems, rest);
      var k :| 0 <= k < |rest| && LineCheck(orderItems, rest[k]) == FirstFailure(orderItems, rest)
               && forall j :: 0 <= j < k ==> LineCheck(orderItems, rest[j]).None?;
      assert items[k + 1] == rest[k];
      forall j | 0 <= j < k + 1
        ensures LineCheck(orderItems, items[j]).None?
      {
        if j > 0 {
          assert items[j] == rest[j - 1];
        }
      }
      assert LineCheck(orderItems, items[k + 1]) == FirstFailure(orderItems, items);
    }
  }

  /** The check is per line and not cumulative: two lines that each return
      the whole quantity of the same order item pass together, so twice the
      units bought can be sent back. */
  lemma LinesAreCheckedAlone(orderItems: seq<Purchases.PurchaseItem>, line: ReturnItemInput, k: nat)
    requires OrderItemIndex(orderItems, line.originalPurchaseItemId) == Some(k)
    requires line.quantity == orderItems[k].quantity >= 1
    ensures FirstFailure(orderItems, [line, line]) == None
    ensures line.quantity + line.quantity > orderItems[k].quantity
  {
    assert LineCheck(orderItems, line) == None;
    assert [line][1..] == [];
    assert FirstFailure(orderItems, [line]) == None;
    assert [line, line][1..] == [line];
  }

  function ItemsTotal(items: seq<ReturnItemInput>): Money
    decreases |items|
  {
    if |items| == 0 then 0.0 else LineTotal(items[0].quantity, items[0].unitCost) + ItemsTotal(items[1..])
  }

  /** The stored line for one request line; the product id is taken from
      the request as given, not from the order item. */
  function ReturnRow(id: Id, item: ReturnItemInput): ReturnItem {
    ReturnItem(id, item.originalPurchaseItemId, item.productId, item.quantity, item.unitCost,
               LineTotal(item.quantity, item.unitCost), item.condition)
  }

  function ReturnRows(itemIds: seq<Id>, items: seq<ReturnItemInput>): (r: seq<ReturnItem>)
    requires |itemIds| == |items|
    ensures |r| == |items|
    decreases |items|
  {
    if |items| == 0 then [] else [ReturnRow(itemIds[0], items[0])] + ReturnRows(itemIds[1..], items[1..])
  }

  function RowsTotal(rows: seq<ReturnItem>): Money
    decreases |rows|
  {
    if |rows| == 0 then 0.0 else rows[0].total + RowsTotal(rows[1..])
  }

  /** Every stored line keeps its request line's product and quantity and
      is worth quantity times unit cost, and the lines add up to the
      return's total. */
  lemma {:induction false} RowsAddUpToTotal(itemIds: seq<Id>, items: seq<ReturnItemInput>)
    requires |itemIds| == |items|
    ensures forall k :: 0 <= k < |items| ==>
              ReturnRows(itemIds, items)[k].total == LineTotal(items[k].quantity, items[k].unitCost)
              && ReturnRows(itemIds, items)[k].productId == items[k].productId
              && ReturnRows(itemIds, items)[k].quantity == items[k].quantity
    ensures RowsTotal(ReturnRows(itemIds, items)) == ItemsTotal(items)
    decreases |items|
  {
    if |items| > 0 {
      RowsAddUpToTotal(itemIds[1..], items[1..]);
      var rows := ReturnRows(itemIds, items);
      assert rows[1..] == ReturnRows(itemIds[1..], items[1..]);
      forall k | 1 <= k < |items|
        ensures rows[k] == ReturnRows(itemIds[1..], items[1..])[k - 1] && items[k] == items[1..][k - 1]
      {
      }
    }
  }

  /** What every stored return satisfies: its total is the sum of its
      lines, every line returns at least one unit, it carries an approver
      exactly when it has left pending, and a credit only once approved. */
  predicate WellFormed(r: PurchaseReturn) {
    r.totalAmount == RowsTotal(r.items)
    && (forall k :: 0 <= k < |r.items| ==> r.items[k].quantity >= 1)
    && (r.status == Pending <==> r.approvedById.None?)
    && (r.status == Pending <==> r.approvedAt.None?)
    && (r.status == Pending || r.status == Rejected ==> r.creditAmount == 0.0)
  }

  /** The return `create` stores once the order and every line pass: it
      takes the order's supplier. */
  function ReturnRecord(id: Id, number: string, input: ReturnInput, order: Purchases.Purchase, createdById: Id,
                        itemIds: seq<Id>, now: int)
    : (r: PurchaseReturn)
    requires |itemIds| == |input.items|
    requires forall k :: 0 <= k < |input.items| ==> input.items[k].quantity >= 1
    ensures WellFormed(r) && r.status == Pending && r.returnNumber == number
    ensures r.totalAmount == ItemsTotal(input.items) && r.creditAmount == 0.0
    ensures r.supplierName == order.supplierName && r.supplierContact == order.supplierContact
    ensures r.originalPurchaseId == input.originalPurchaseId && r.notes == input.notes
  {
    RowsAddUpToTotal(itemIds, input.items);
    PurchaseReturn(id, number, input.originalPurchaseId, order.supplierName, order.supplierContact, input.reason,
                   input.notes, ItemsTotal(input.items), 0.0, Pending, createdById, None, None, now,
                   ReturnRows(itemIds, input.items))
  }

  /** What `create` refuses an order for: anything but a received order,
      then the first failing line. */
  function OrderCheck(order: Purchases.Purchase, items: seq<ReturnItemInput>): (r: Option<Error>)
    ensures order.status != Purchases.Received ==> r == Some(InvalidStatus("Can only return received purchases"))
    ensures order.status == Purchases.Received ==> r == FirstFailure(order.items, items)
  {
    if order.status != Purchases.Received then Some(InvalidStatus("Can only return received purchases"))
    else FirstFailure(order.items, items)
  }

  /** `purchaseReturn.notes || ""`. */
  function OrEmpty(notes: Option<string>): string {
    match notes
    case None => ""
    case Some(s) => s
  }

  /** The approval of one return: refused unless pending; otherwise it
      becomes approved with the credit, the approver and the time, and
      non-empty approval notes are appended on a new line. */
  function Approval(r: PurchaseReturn, creditAmount: Money, notes: Option<string>, approvedById: Id, now: int)
    : (a: Result<PurchaseReturn>)
    ensures a.Ok? <==> r.status == Pending
    ensures a.Err? ==> a.error == InvalidStatus("Can only approve pending returns")
    ensures a.Ok? ==> a.value.status == Approved && a.value.creditAmount == creditAmount
                      && a.value.approvedById == Some(approvedById) && a.value.approvedAt == Some(now)
                      && a.value.items == r.items && a.value.totalAmount == r.totalAmount
    ensures a.Ok? && notes.Some? && notes.value != ""
            ==> a.value.notes == Some(OrEmpty(r.notes) + "\nApproval Notes: " + notes.value)
    ensures a.Ok? && (notes.None? || notes.value == "") ==> a.value.notes == r.notes
  {
    if r.status != Pending then Err(InvalidStatus("Can only approve pending returns"))
    else
      var approved := r.(status := Approved, creditAmount := creditAmount, approvedById := Some(approvedById),
                         approvedAt := Some(now));
      if notes.Some? && notes.value != "" then
        Ok(approved.(notes := Some(OrEmpty(r.notes) + "\nApproval Notes: " + notes.value)))
      else Ok(approved)
  }

  /** The rejection of one return: refused unless pending; otherwise it
      becomes rejected with the approver and the time, and the reason is
      always appended to the notes on a new line. */
  function Rejection(r: PurchaseReturn, reason: string, approvedById: Id, now: int): (a: Result<PurchaseReturn>)
    ensures a.Ok? <==> r.status == Pending
    ensures a.Err? ==> a.error == InvalidStatus("Can only reject pending returns")
    ensures a.Ok? ==> a.value.status == Rejected && a.value.approvedById == Some(approvedById)
                      && a.value.approvedAt == Some(now) && a.value.creditAmount == r.creditAmount
                      && a.value.notes == Some(OrEmpty(r.notes) + "\nRejection Reason: " + reason)
  {
    if r.status != Pending then Err(InvalidStatus("Can only reject pending returns"))
    else Ok(r.(status := Rejected, approvedById := Some(approvedById), approvedAt := Some(now),
               notes := Some(OrEmpty(r.notes) + "\nRejection Reason: " + reason)))
  }

  /** The shipment of one return: refused unless approved. */
  function Shipment(r: PurchaseReturn): (a: Result<PurchaseReturn>)
    ensures a.Ok? <==> r.status == Approved
    ensures a.Err? ==> a.error == InvalidStatus("Can only ship approved returns")
    ensures a.Ok? ==> a.value == r.(status := Shipped)
  {
    if r.status != Approved then Err(InvalidStatus("Can only ship approved returns"))
    else Ok(r.(status := Shipped))
  }

  /** The completion of one return: refused unless shipped. */
  function Completion(r: PurchaseReturn): (a: Result<PurchaseReturn>)
    ensures a.Ok? <==> r.status == Shipped
    ensures a.Err? ==> a.error == InvalidStatus("Can only complete shipped returns")
    ensures a.Ok? ==> a.value == r.(status := Completed)
  {
    if r.status != Shipped then Err(InvalidStatus("Can only complete shipped returns"))
    else Ok(r.(status := Completed))
  }

  /** The four workflow calls on a stored return. */
  datatype Action =
    | Approve(creditAmount: Money, approvalNotes: Option<string>, approverId: Id, approvedTime: int)
    | Reject(rejectReason: string, rejecterId: Id, rejectedTime: int)
    | Ship
    | Complete

  function Step(r: PurchaseReturn, action: Action): Result<PurchaseReturn> {
    match action
    case Approve(amount, notes, approver, at) => Approval(r, amount, notes, approver, at)
    case Reject(reason, approver, at) => Rejection(r, reason, approver, at)
    case Ship => Shipment(r)
    case Complete => Completion(r)
  }

  /** The only status changes are pending to approved or rejected,
      approved to shipped and shipped to completed; rejected and completed
      returns admit no call. Every accepted call keeps a return well formed
      and its lines, and only ever appends to the notes. */
  lemma StepTransitions(r: PurchaseReturn, action: Action)
    requires WellFormed(r)
    ensures Step(r, action).Ok? ==>
              (r.status == Pending && Step(r, action).value.status == Approved && action.Approve?)
              || (r.status == Pending && Step(r, action).value.status == Rejected && action.Reject?)
              || (r.status == Approved && Step(r, action).value.status == Shipped && action.Ship?)
              || (r.status == Shipped && Step(r, action).value.status == Completed && action.Complete?)
    ensures r.status == Rejected || r.status == Completed ==> Step(r, action).Err?
    ensures Step(r, action).Ok? ==> WellFormed(Step(r, action).value) && Step(r, action).value.items == r.items
    ensures Step(r, action).Ok? ==> StartsWith(OrEmpty(Step(r, action).value.notes), OrEmpty(r.notes))
  {
    match action
    case Approve(amount, notes, approver, at) =>
      if r.status == Pending && notes.Some? && notes.value != "" {
        StartsWithConcat(OrEmpty(r.notes), "\nApproval Notes: " + notes.value);
      } else if r.status == Pending {
        StartsWithConcat(OrEmpty(r.notes), "");
      }
    case Reject(reason, approver, at) =>
      StartsWithConcat(OrEmpty(r.notes), "\nRejection Reason: " + reason);
    case Ship =>
      StartsWithConcat(OrEmpty(r.notes), "");
    case Complete =>
      StartsWithConcat(OrEmpty(r.notes), "");
  }

  /** The return after a series of calls, each refused call leaving the
      return as it was. */
  function Run(r: PurchaseReturn, actions: seq<Action>): PurchaseReturn
    decreases |actions|
  {
    if |actions| == 0 then r
    else match Step(r, actions[0])
      case Ok(next) => Run(next, actions[1..])
      case Err(_) => Run(r, actions[1..])
  }

  /** How many calls of a series are accepted approvals, each of which takes
      the returned units out of stock. */
  function Approvals(r: PurchaseReturn, actions: seq<Action>): nat
    decreases |actions|
  {
    if |actions| == 0 then 0
    else match Step(r, actions[0])
      case Ok(next) => (if actions[0].Approve? then 1 else 0) + Approvals(next, actions[1..])
      case Err(_) => Approvals(r, actions[1..])
  }

  /** Stock is taken out at most once per return: whatever the calls, at
      most one approval is accepted, and none unless it starts pending. */
  lemma {:induction false} ApprovedAtMostOnce(r: PurchaseReturn, actions: seq<Action>)
    requires WellFormed(r)
    ensures Approvals(r, actions) <= (if r.status == Pending then 1 else 0)
    decreases |actions|
  {
    if |actions| > 0 {
      StepTransitions(r, actions[0]);
      match Step(r, actions[0])
      case Ok(next) => ApprovedAtMostOnce(next, actions[1..]);
      case Err(_) => ApprovedAtMostOnce(r, actions[1..]);
    }
  }

  /** A rejected return stays rejected, and a pending return that ends
      approved, shipped or completed went through exactly one approval;
      every return stays well formed along the way. */
  lemma {:induction false} CompletedWasApproved(r: PurchaseReturn, actions: seq<Action>)
    requires WellFormed(r)
    ensures r.status == Rejected ==> Run(r, actions).status == Rejected
    ensures r.status == Pending && Run(r, actions).status in {Approved, Shipped, Completed} ==> Approvals(r, actions) == 1
    ensures WellFormed(Run(r, actions))
    decreases |actions|
  {
    if |actions| > 0 {
      StepTransitions(r, actions[0]);
      match Step(r, actions[0])
      case Ok(next) =>
        CompletedWasApproved(next, actions[1..]);
        ApprovedAtMostOnce(next, actions[1..]);
      case Err(_) => CompletedWasApproved(r, actions[1..]);
    }
  }

  /** The stock updates an approval issues: minus each line's quantity, for
      the product the line names. */
  function Dispatch(items: seq<ReturnItem>): (r: seq<StockChange>)
    ensures |r| == |items|
    ensures forall k :: 0 <= k < |items| ==> r[k] == StockChange(items[k].productId, -items[k].quantity)
  {
    seq(|items|, k requires 0 <= k < |items| => StockChange(items[k].productId, -items[k].quantity))
  }

  /** A completed dispatch lowers each product's stock by exactly the units
      the return's lines name for it, never raises one, and changes
      nothing else; no lower bound is checked, so stock can go below zero. */
  lemma DispatchLowersStock(products: seq<Product>, r: PurchaseReturn, j: nat)
    requires UniqueIds(products) && j < |products| && WellFormed(r)
    requires ApplyChanges(products, Dispatch(r.items)).failure.None?
    ensures ApplyChanges(products, Dispatch(r.items)).products[j]
         == products[j].(stock := products[j].stock + QuantityFor(products[j].id, Dispatch(r.items)))
    ensures ApplyChanges(products, Dispatch(r.items)).products[j].stock <= products[j].stock
  {
    ApplyChangesPerProduct(products, Dispatch(r.items), j);
    OutgoingNeverRaisesStock(products[j].id, Dispatch(r.items));
  }

  function ReturnCreatedAt(r: PurchaseReturn): int {
    r.createdAt
  }

  /** The return number the generator reads (the newest return's). */
  function NewestReturnNumber(purchaseReturns: seq<PurchaseReturn>): Option<string> {
    match NewestIndex(purchaseReturns, ReturnCreatedAt)
    case None => None
    case Some(k) => Some(purchaseReturns[k].returnNumber)
  }

  /** Where `findOne` finds the return with primary key `id`. */
  function ReturnIndex(purchaseReturns: seq<PurchaseReturn>, id: Id): (r: Option<nat>)
    ensures r.Some? ==> r.value < |purchaseReturns| && purchaseReturns[r.value].id == id
    ensures r.None? <==> forall k :: 0 <= k < |purchaseReturns| ==> purchaseReturns[k].id != id
  {
    FirstIndex(purchaseReturns, (pr: PurchaseReturn) => pr.id == id)
  }

  class PurchaseReturnsService {
    const purchases: Purchases.PurchasesService
    const catalog: ProductCatalog
    var purchaseReturns: seq<PurchaseReturn>

    ghost predicate Valid()
      reads this, catalog
    {
      catalog.Valid() && forall k :: 0 <= k < |purchaseReturns| ==> WellFormed(purchaseReturns[k])
    }

    constructor (purchases: Purchases.PurchasesService, catalog: ProductCatalog)
      requires catalog.Valid()
      ensures Valid() && this.purchases == purchases && this.catalog == catalog && purchaseReturns == []
    {
      this.purchases := purchases;
      this.catalog := catalog;
      purchaseReturns := [];
    }

    /** `findOne`: the return with its lines, or NotFound. */
    function FindOne(id: Id): (r: Result<PurchaseReturn>)
      reads this
      ensures r.Ok? <==> exists k :: 0 <= k < |purchaseReturns| && purchaseReturns[k].id == id
      ensures r.Ok? ==> r.value in purchaseReturns && r.value.id == id
      ensures r.Err? ==> r.error == NotFound("Purchase return")
    {
      match ReturnIndex(purchaseReturns, id)
      case Some(k) => Ok(purchaseReturns[k])
      case None => Err(NotFound("Purchase return"))
    }

    /** The line loop of `create`: each line is checked against the order's
        items, and its value added up and its row kept. Nothing is written. */
    static method CheckLines(orderItems: seq<Purchases.PurchaseItem>, items: seq<ReturnItemInput>, itemIds: seq<Id>)
      returns (failure: Option<Error>, totalAmount: Money, rows: seq<ReturnItem>)
      requires |itemIds| == |items|
      ensures failure == FirstFailure(orderItems, items)
      ensures failure.None? ==> totalAmount == ItemsTotal(items) && rows == ReturnRows(itemIds, items)
    {
      totalAmount := 0.0;
      rows := [];
      var i := 0;
      while i < |items|
        invariant 0 <= i <= |items|
        invariant FirstFailure(orderItems, items) == FirstFailure(orderItems, items[i..])
        invariant totalAmount + ItemsTotal(items[i..]) == ItemsTotal(items)
        invariant rows + ReturnRows(itemIds[i..], items[i..]) == ReturnRows(itemIds, items)
      {
        var item := items[i];
        assert items[i..][0] == item && items[i..][1..] == items[i + 1..];
        assert itemIds[i..][0] == itemIds[i] && itemIds[i..][1..] == itemIds[i + 1..];
        var found := OrderItemIndex(orderItems, item.originalPurchaseItemId);
        if found.None? {
          return Some(ItemNotFound(item.originalPurchaseItemId)), totalAmount, rows;
        }
        var original := orderItems[found.value];
        if item.quantity > original.quantity {
          return Some(QuantityExceedsOriginal(original.productId)), totalAmount, rows;
        }
        assert LineCheck(orderItems, item) == None;
        var itemTotal := LineTotal(item.quantity, item.unitCost);
        totalAmount := totalAmount + itemTotal;
        var row := ReturnItem(itemIds[i], item.originalPurchaseItemId, item.productId, item.quantity,
                              item.unitCost, itemTotal, item.condition);
        ghost var later := ReturnRows(itemIds[i + 1..], items[i + 1..]);
        assert ReturnRows(itemIds[i..], items[i..]) == [row] + later;
        assert (rows + [row]) + later == rows + ([row] + later);
        rows := rows + [row];
        i := i + 1;
      }
      failure := None;
    }

    /** `create`: the order must exist and be received and every line must
        pass; then one pending return is appended. `today` and `now` are
        the clock readings, `returnId` and `itemIds` the new rows' keys. */
    method Create(input: ReturnInput, createdById: Id, returnId: Id, itemIds: seq<Id>, today: CalendarDate, now: int)
      returns (r: Result<PurchaseReturn>)
      requires Valid() && |itemIds| == |input.items|
      requires forall k :: 0 <= k < |input.items| ==> input.items[k].quantity >= 1
      modifies this
      ensures Valid()
      ensures match purchases.FindOne(input.originalPurchaseId)
        case Err(e) => r == Err(e) && purchaseReturns == old(purchaseReturns)
        case Ok(order) =>
          if OrderCheck(order, input.items).Some? then
            r == Err(OrderCheck(order, input.items).value) && purchaseReturns == old(purchaseReturns)
          else
            r == Ok(ReturnRecord(returnId, GenerateNumber(PurchaseReturnPrefix, today, NewestReturnNumber(old(purchaseReturns))),
                                 input, order, createdById, itemIds, now))
            && purchaseReturns == old(purchaseReturns) + [r.value]
    {
      var found := purchases.FindOne(input.originalPurchaseId);
      if found.Err? {
        return Err(found.error);
      }
      var order := found.value;
      if order.status != Purchases.Received {
        return Err(InvalidStatus("Can only return received purchases"));
      }
      var failure, totalAmount, rows := CheckLines(order.items, input.items, itemIds);
      if failure.Some? {
        return Err(failure.value);
      }
      var number := GenerateNumber(PurchaseReturnPrefix, today, NewestReturnNumber(purchaseReturns));
      var purchaseReturn := PurchaseReturn(returnId, number, input.originalPurchaseId, order.supplierName,
                                           order.supplierContact, input.reason, input.notes, totalAmount, 0.0,
                                           Pending, createdById, None, None, now, rows);
      assert purchaseReturn == ReturnRecord(returnId, number, input, order, createdById, itemIds, now);
      purchaseReturns := purchaseReturns + [purchaseReturn];
      return Ok(purchaseReturn);
    }

    /** `approve`: NotFound for an unknown return, a refusal unless it is
        pending, otherwise each line's units leave stock in turn and the
        return is approved. An unknown product stops the loop with the
        earlier decrements kept and the return still pending. */
    method Approve(id: Id, creditAmount: Money, notes: Option<string>, approvedById: Id, now: int)
      returns (r: Result<PurchaseReturn>)
      requires Valid()
      modifies this, catalog
      ensures Valid()
      ensures match ReturnIndex(old(purchaseReturns), id)
        case None => r == Err(NotFound("Purchase return")) && purchaseReturns == old(purchaseReturns)
                     && catalog.products == old(catalog.products)
        case Some(k) =>
          var pr := old(purchaseReturns)[k];
          var a := Approval(pr, creditAmount, notes, approvedById, now);
          if a.Err? then r == a && purchaseReturns == old(purchaseReturns) && catalog.products == old(catalog.products)
          else
            var run := ApplyChanges(old(catalog.products), Dispatch(pr.items));
            catalog.products == run.products
            && (run.failure.Some? ==> r == Err(run.failure.value) && purchaseReturns == old(purchaseReturns))
            && (run.failure.None? ==> r == a && purchaseReturns == old(purchaseReturns)[k := a.value])
    {
      var k := ReturnIndex(purchaseReturns, id);
      if k.None? {
        return Err(NotFound("Purchase return"));
      }
      var purchaseReturn := purchaseReturns[k.value];
      if purchaseReturn.status != Pending {
        return Err(InvalidStatus("Can only approve pending returns"));
      }
      var failure := catalog.UpdateStocks(Dispatch(purchaseReturn.items));
      if failure.Some? {
        return Err(failure.value);
      }
      StepTransitions(purchaseReturn, Action.Approve(creditAmount, notes, approvedById, now));
      purchaseReturn := purchaseReturn.(status := Approved, creditAmount := creditAmount,
                                        approvedById := Some(approvedById), approvedAt := Some(now));
      if notes.Some? && notes.value != "" {
        purchaseReturn := purchaseReturn.(notes := Some(OrEmpty(purchaseReturns[k.value].notes) + "\nApproval Notes: " + notes.value));
      }
      purchaseReturns := purchaseReturns[k.value := purchaseReturn];
      return Ok(purchaseReturn);
    }

    /** `reject`: NotFound for an unknown return, otherwise the rejection
        of the stored return, saved when accepted. */
    method Reject(id: Id, reason: string, approvedById: Id, now: int) returns (r: Result<PurchaseReturn>)
      requires Valid()
      modifies this
      ensures Valid()
      ensures match ReturnIndex(old(purchaseReturns), id)
        case None => r == Err(NotFound("Purchase return")) && purchaseReturns == old(purchaseReturns)
        case Some(k) =>
          r == Rejection(old(purchaseReturns)[k], reason, approvedById, now)
          && purchaseReturns == (if r.Ok? then old(purchaseReturns)[k := r.value] else old(purchaseReturns))
    {
      var k := ReturnIndex(purchaseReturns, id);
      if k.None? {
        return Err(NotFound("Purchase return"));
      }
      var purchaseReturn := purchaseReturns[k.value];
      if purchaseReturn.status != Pending {
        return Err(InvalidStatus("Can only reject pending returns"));
      }
      StepTransitions(purchaseReturn, Action.Reject(reason, approvedById, now));
      purchaseReturn := purchaseReturn.(status := Rejected, approvedById := Some(approvedById), approvedAt := Some(now),
                                        notes := Some(OrEmpty(purchaseReturn.notes) + "\nRejection Reason: " + reason));
      purchaseReturns := purchaseReturns[k.value := purchaseReturn];
      return Ok(purchaseReturn);
    }

    /** `ship`: NotFound for an unknown return, otherwise the shipment of
        the stored return, saved when accepted. */
    method Ship(id: Id) returns (r: Result<PurchaseReturn>)
      requires Valid()
      modifies this
      ensures Valid()
      ensures match ReturnIndex(old(purchaseReturns), id)
        case None => r == Err(NotFound("Purchase return")) && purchaseReturns == old(purchaseReturns)
        case Some(k) =>
          r == Shipment(old(purchaseReturns)[k])
          && purchaseReturns == (if r.Ok? then old(purchaseReturns)[k := r.value] else old(purchaseReturns))
    {
      var k := ReturnIndex(purchaseReturns, id);
      if k.None? {
        return Err(NotFound("Purchase return"));
      }
      var purchaseReturn := purchaseReturns[k.value];
      if purchaseReturn.status != Approved {
        return Err(InvalidStatus("Can only ship approved returns"));
      }
      StepTransitions(purchaseReturn, Action.Ship);
      purchaseReturn := purchaseReturn.(status := Shipped);
      purchaseReturns := purchaseReturns[k.value := purchaseReturn];
      return Ok(purchaseReturn);
    }

    /** `complete`: NotFound for an unknown return, otherwise the
        completion of the stored return, saved when accepted. */
    method Complete(id: Id) returns (r: Result<PurchaseReturn>)
      requires Valid()
      modifies this
      ensures Valid()
      ensures match ReturnIndex(old(purchaseReturns), id)
        case None => r == Err(NotFound("Purchase return")) && purchaseReturns == old(purchaseReturns)
        case Some(k) =>
          r == Completion(old(purchaseReturns)[k])
          && purchaseReturns == (if r.Ok? then old(purchaseReturns)[k := r.value] else old(purchaseReturns))
    {
      var k := ReturnIndex(purchaseReturns, id);
      if k.None? {
        return Err(NotFound("Purchase return"));
      }
      var purchaseReturn := purchaseReturns[k.value];
      if purchaseReturn.status != Shipped {
        return Err(InvalidStatus("Can only complete shipped returns"));
      }
      StepTransitions(purchaseReturn, Action.Complete);
      purchaseReturn := purchaseReturn.(status := Completed);
      purchaseReturns := purchaseReturns[k.value := purchaseReturn];
      return Ok(purchaseReturn);
    }
  }
}
