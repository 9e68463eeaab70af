/** The reports (`ReportsService`): sums, counts and filters over the rows
    of a period, read from the sales, purchases, products and returns
    tables. Nothing is written. Periods are `createdAt` ranges in
    milliseconds with both ends included. */
module Reports {
  import opened Common
  import opened Products
  import Sales
  import Purchases
  import SaleReturns
  import PurchaseReturns

  /** `xs.filter(p)`. */
  function Keep<T(!new)>(xs: seq<T>, p: T -> bool): (r: seq<T>)
    ensures |r| <= |xs|
    ensures forall x :: x in r <==> x in xs && p(x)
    decreases |xs|
  {
    if |xs| == 0 then []
    else
      assert xs == [xs[0]] + xs[1..];
      if p(xs[0]) then [xs[0]] + Keep(xs[1..], p) else Keep(xs[1..], p)
  }

  /** `filter(p).length`. */
  function Count<T(!new)>(xs: seq<T>, p: T -> bool): nat {
    |Keep(xs, p)|
  }

  /** The rows whose creation time lies in `[lo, hi]`: a `Between` query. */
  function Within<T(!new)>(xs: seq<T>, createdAt: T -> int, lo: int, hi: int): (r: seq<T>)
    ensures |r| <= |xs|
    ensures forall x :: x in r <==> x in xs && Between(createdAt(x), lo, hi)
    decreases |xs|
  {
    if |xs| == 0 then []
    else
      assert xs == [xs[0]] + xs[1..];
      if Between(createdAt(xs[0]), lo, hi) then [xs[0]] + Within(xs[1..], createdAt, lo, hi)
      else Within(xs[1..], createdAt, lo, hi)
  }

  /** `filter` keeps each row that passes as often as it occurs and drops
      the others. */
  lemma {:induction false} KeepMultiplicity<T(!new)>(xs: seq<T>, p: T -> bool)
    ensures forall x :: multiset(Keep(xs, p))[x] == if p(x) then multiset(xs)[x] else 0
    decreases |xs|
  {
    if |xs| > 0 {
      assert xs == [xs[0]] + xs[1..];
      KeepMultiplicity(xs[1..], p);
    }
  }

  lemma {:induction false} WithinMultiplicity<T(!new)>(xs: seq<T>, createdAt: T -> int, lo: int, hi: int)
    ensures forall x :: multiset(Within(xs, createdAt, lo, hi))[x]
              == if Between(createdAt(x), lo, hi) then multiset(xs)[x] else 0
    decreases |xs|
  {
    if |xs| > 0 {
      assert xs == [xs[0]] + xs[1..];
      WithinMultiplicity(xs[1..], createdAt, lo, hi);
    }
  }

  /** `reduce((sum, x) => sum + f(x), 0)`. */
  function Sum<T>(xs: seq<T>, f: T -> real): real
    decreases |xs|
  {
    if |xs| == 0 then 0.0 else f(xs[0]) + Sum(xs[1..], f)
  }

  /** Two adjacent periods report what their union reports: the rows of
      `[lo, hi]` are those of `[lo, mid]` and of `[mid + 1, hi]`, so both
      the counts and the sums add up. */
  lemma {:induction false} PeriodsAdd<T(!new)>(xs: seq<T>, createdAt: T -> int, lo: int, mid: int, hi: int, f: T -> real)
    requires lo <= mid <= hi
    ensures |Within(xs, createdAt, lo, hi)| == |Within(xs, createdAt, lo, mid)| + |Within(xs, createdAt, mid + 1, hi)|
    ensures Sum(Within(xs, createdAt, lo, hi), f)
         == Sum(Within(xs, createdAt, lo, mid), f) + Sum(Within(xs, createdAt, mid + 1, hi), f)
    decreases |xs|
  {
    if |xs| > 0 {
      var x, rest := xs[0], xs[1..];
      PeriodsAdd(rest, createdAt, lo, mid, hi, f);
      if Between(createdAt(x), lo, mid) {
        SumCons(x, Within(rest, createdAt, lo, hi), f);
        SumCons(x, Within(rest, createdAt, lo, mid), f);
      } else if Between(createdAt(x), mid + 1, hi) {
        SumCons(x, Within(rest, createdAt, lo, hi), f);
        SumCons(x, Within(rest, createdAt, mid + 1, hi), f);
      }
    }
  }

  lemma SumCons<T>(x: T, xs: seq<T>, f: T -> real)
    ensures Sum([x] + xs, f) == f(x) + Sum(xs, f)
  {
    assert ([x] + xs)[1..] == xs;
  }

  /** Two tables whose rows agree, one by one, on the creation time and on
      a figure give the same count and sum of that figure for any period. */
  lemma {:induction false} SameFigures<T(!new)>(xs: seq<T>, ys: seq<T>, createdAt: T -> int, f: T -> real, lo: int, hi: int)
    requires |xs| == |ys|
    requires forall k :: 0 <= k < |xs| ==> createdAt(xs[k]) == createdAt(ys[k]) && f(xs[k]) == f(ys[k])
    ensures |Within(xs, createdAt, lo, hi)| == |Within(ys, createdAt, lo, hi)|
    ensures Sum(Within(xs, createdAt, lo, hi), f) == Sum(Within(ys, createdAt, lo, hi), f)
    decreases |xs|
  {
    if |xs| > 0 {
      assert forall k :: 1 <= k < |xs| ==> xs[1..][k - 1] == xs[k] && ys[1..][k - 1] == ys[k];
      SameFigures(xs[1..], ys[1..], createdAt, f, lo, hi);
      if Between(createdAt(xs[0]), lo, hi) {
        SumCons(xs[0], Within(xs[1..], createdAt, lo, hi), f);
        SumCons(ys[0], Within(ys[1..], createdAt, lo, hi), f);
      }
    }
  }

  /** A sum of differences is the difference of the sums. */
  lemma {:induction false} SumOfDifferences<T>(xs: seq<T>, f: T -> real, g: T -> real, h: T -> real)
    requires forall k :: 0 <= k < |xs| ==> h(xs[k]) == f(xs[k]) - g(xs[k])
    ensures Sum(xs, h) == Sum(xs, f) - Sum(xs, g)
    decreases |xs|
  {
    if |xs| > 0 {
      assert forall k :: 1 <= k < |xs| ==> xs[1..][k - 1] == xs[k];
      SumOfDifferences(xs[1..], f, g, h);
    }
  }

  /** Terms that are never negative add up to a sum that is not. */
  lemma {:induction false} SumNonNegative<T>(xs: seq<T>, f: T -> real)
    requires forall k :: 0 <= k < |xs| ==> f(xs[k]) >= 0.0
    ensures Sum(xs, f) >= 0.0
    decreases |xs|
  {
    if |xs| > 0 {
      assert forall k :: 1 <= k < |xs| ==> xs[1..][k - 1] == xs[k];
      SumNonNegative(xs[1..], f);
    }
  }

  /** A filter by a stronger test keeps a sub-list of what a weaker one
      keeps. */
  lemma {:induction false} KeepStronger<T(!new)>(xs: seq<T>, p: T -> bool, q: T -> bool)
    requires forall k :: 0 <= k < |xs| ==> p(xs[k]) ==> q(xs[k])
    ensures |Keep(xs, p)| <= |Keep(xs, q)|
    decreases |xs|
  {
    if |xs| > 0 {
      assert forall k :: 1 <= k < |xs| ==> xs[1..][k - 1] == xs[k];
      KeepStronger(xs[1..], p, q);
    }
  }

  /** Counts by three mutually exclusive tests add up to at most the
      number of rows, and to exactly that when every row passes one. */
  lemma {:induction false} CountsOfExclusiveTests<T(!new)>(xs: seq<T>, p: T -> bool, q: T -> bool, s: T -> bool)
    requires forall k :: 0 <= k < |xs| ==> !(p(xs[k]) && q(xs[k])) && !(p(xs[k]) && s(xs[k])) && !(q(xs[k]) && s(xs[k]))
    ensures Count(xs, p) + Count(xs, q) + Count(xs, s) <= |xs|
    ensures (forall k :: 0 <= k < |xs| ==> p(xs[k]) || q(xs[k]) || s(xs[k]))
            ==> Count(xs, p) + Count(xs, q) + Count(xs, s) == |xs|
    decreases |xs|
  {
    if |xs| > 0 {
      assert forall k :: 1 <= k < |xs| ==> xs[1..][k - 1] == xs[k];
      CountsOfExclusiveTests(xs[1..], p, q, s);
    }
  }

  // ---------------------------------------------------------------- sales

  function SaleTotal(s: Sales.Sale): real { s.total }
  function SaleDiscount(s: Sales.Sale): real { s.discount }
  function SaleTax(s: Sales.Sale): real { s.tax }
  function SaleNet(s: Sales.Sale): real { s.total - s.discount }
  predicate IsCompletedSale(s: Sales.Sale) { s.status == Sales.Completed }

  datatype SalesSummary = SalesSummary(
    totalSales: Money,
    totalDiscount: Money,
    totalTax: Money,
    netSales: Money,
    salesCount: nat)

  datatype SalesReport = SalesReport(sales: seq<Sales.Sale>, summary: SalesSummary)

  /** The completed sales of the period. */
  function SalesOfPeriod(sales: seq<Sales.Sale>, startDate: int, endDate: int): seq<Sales.Sale> {
    Within(Keep(sales, IsCompletedSale), Sales.SaleCreatedAt, startDate, endDate)
  }

  /** `getSalesReport`: the completed sales created in the period (each as
      often as it is stored), the sums of their totals, discounts and
      taxes, the net sales and the count. */
  function GetSalesReport(sales: seq<Sales.Sale>, startDate: int, endDate: int): (r: SalesReport)
    ensures forall s :: s in r.sales <==> s in sales && s.status == Sales.Completed && Between(s.createdAt, startDate, endDate)
    ensures forall s :: multiset(r.sales)[s]
              == if s.status == Sales.Completed && Between(s.createdAt, startDate, endDate) then multiset(sales)[s] else 0
    ensures r.summary.salesCount == |r.sales|
    ensures r.summary.totalSales == Sum(r.sales, SaleTotal)
    ensures r.summary.totalDiscount == Sum(r.sales, SaleDiscount)
    ensures r.summary.totalTax == Sum(r.sales, SaleTax)
    ensures r.summary.netSales == r.summary.totalSales - r.summary.totalDiscount
    ensures r.summary.netSales == Sum(r.sales, SaleNet)
  {
    var rows := SalesOfPeriod(sales, startDate, endDate);
    KeepMultiplicity(sales, IsCompletedSale);
    WithinMultiplicity(Keep(sales, IsCompletedSale), Sales.SaleCreatedAt, startDate, endDate);
    SumOfDifferences(rows, SaleTotal, SaleDiscount, SaleNet);
    var totalSales := Sum(rows, SaleTotal);
    var totalDiscount := Sum(rows, SaleDiscount);
    SalesReport(rows, SalesSummary(totalSales, totalDiscount, Sum(rows, SaleTax), totalSales - totalDiscount, |rows|))
  }

  /** The sales report of a period is the sum of the reports of its two
      halves: counts, totals and net sales add up. */
  lemma SalesReportsAdd(sales: seq<Sales.Sale>, lo: int, mid: int, hi: int)
    requires lo <= mid <= hi
    ensures GetSalesReport(sales, lo, hi).summary.salesCount
         == GetSalesReport(sales, lo, mid).summary.salesCount + GetSalesReport(sales, mid + 1, hi).summary.salesCount
    ensures GetSalesReport(sales, lo, hi).summary.totalSales
         == GetSalesReport(sales, lo, mid).summary.totalSales + GetSalesReport(sales, mid + 1, hi).summary.totalSales
    ensures GetSalesReport(sales, lo, hi).summary.netSales
         == GetSalesReport(sales, lo, mid).summary.netSales + GetSalesReport(sales, mid + 1, hi).summary.netSales
  {
    var completed := Keep(sales, IsCompletedSale);
    PeriodsAdd(completed, Sales.SaleCreatedAt, lo, mid, hi, SaleTotal);
    PeriodsAdd(completed, Sales.SaleCreatedAt, lo, mid, hi, SaleNet);
  }

  // ------------------------------------------------------------ purchases

  function PurchaseTotal(p: Purchases.Purchase): real { p.total }
  function PurchaseDiscount(p: Purchases.Purchase): real { p.discount }
  function PurchaseTax(p: Purchases.Purchase): real { p.tax }
  function PurchaseNet(p: Purchases.Purchase): real { p.total - p.discount }

  datatype PurchaseSummary = PurchaseSummary(
    totalPurchases: Money,
    totalDiscount: Money,
    totalTax: Money,
    netPurchases: Money,
    purchaseCount: nat)

  datatype PurchaseReport = PurchaseReport(purchases: seq<Purchases.Purchase>, summary: PurchaseSummary)

  /** `getPurchaseReport`: every purchase created in the period, whatever
      its status (each as often as it is stored), with the same sums as the
      sales report. */
  function GetPurchaseReport(purchases: seq<Purchases.Purchase>, startDate: int, endDate: int): (r: PurchaseReport)
    ensures forall p :: p in r.purchases <==> p in purchases && Between(p.createdAt, startDate, endDate)
    ensures forall p :: multiset(r.purchases)[p]
              == if Between(p.createdAt, startDate, endDate) then multiset(purchases)[p] else 0
    ensures r.summary.purchaseCount == |r.purchases|
    ensures r.summary.totalPurchases == Sum(r.purchases, PurchaseTotal)
    ensures r.summary.totalDiscount == Sum(r.purchases, PurchaseDiscount)
    ensures r.summary.totalTax == Sum(r.purchases, PurchaseTax)
    ensures r.summary.netPurchases == r.summary.totalPurchases - r.summary.totalDiscount
    ensures r.summary.netPurchases == Sum(r.purchases, PurchaseNet)
  {
    var rows := Within(purchases, Purchases.PurchaseCreatedAt, startDate, endDate);
    WithinMultiplicity(purchases, Purchases.PurchaseCreatedAt, startDate, endDate);
    SumOfDifferences(rows, PurchaseTotal, PurchaseDiscount, PurchaseNet);
    var total := Sum(rows, PurchaseTotal);
    var discount := Sum(rows, PurchaseDiscount);
    PurchaseReport(rows, PurchaseSummary(total, discount, Sum(rows, PurchaseTax), total - discount, |rows|))
  }

  /** A purchase's status does not matter to the report: cancelling or
      receiving an order leaves every figure as it was. */
  lemma StatusDoesNotMatter(purchases: seq<Purchases.Purchase>, k: nat, status: Purchases.PurchaseStatus,
                            startDate: int, endDate: int)
    requires k < |purchases|
    ensures GetPurchaseReport(purchases[k := purchases[k].(status := status)], startDate, endDate).summary
         == GetPurchaseReport(purchases, startDate, endDate).summary
  {
    var changed := purchases[k := purchases[k].(status := status)];
    var at := Purchases.PurchaseCreatedAt;
    SameFigures(changed, purchases, at, PurchaseTotal, startDate, endDate);
    SameFigures(changed, purchases, at, PurchaseDiscount, startDate, endDate);
    SameFigures(changed, purchases, at, PurchaseTax, startDate, endDate);
  }

  // ---------------------------------------------------------------- stock

  predicate IsLowStock(p: Product) { p.stock <= p.minStock }
  predicate IsOutOfStock(p: Product) { p.stock == 0 }
  function StockValue(p: Product): real { p.cost * p.stock as real }

  datatype StockSummary = StockSummary(
    totalProducts: nat,
    lowStockCount: nat,
    outOfStockCount: nat,
    totalStockValue: Money)

  datatype StockReport = StockReport(
    products: seq<Product>,
    summary: StockSummary,
    lowStockProducts: seq<Product>,
    outOfStockProducts: seq<Product>)

  /** `getStockReport`: the active products, those at or below their
      minimum stock, those at exactly zero (each as often as it is
      stored), and the stock valued at cost. */
  function GetStockReport(products: seq<Product>): (r: StockReport)
    ensures forall p :: p in r.products <==> p in products && p.isActive
    ensures forall p :: p in r.lowStockProducts <==> p in r.products && p.stock <= p.minStock
    ensures forall p :: p in r.outOfStockProducts <==> p in r.products && p.stock == 0
    ensures forall p :: multiset(r.products)[p] == if p.isActive then multiset(products)[p] else 0
    ensures forall p :: multiset(r.lowStockProducts)[p]
              == if p.isActive && p.stock <= p.minStock then multiset(products)[p] else 0
    ensures forall p :: multiset(r.outOfStockProducts)[p]
              == if p.isActive && p.stock == 0 then multiset(products)[p] else 0
    ensures r.summary.totalProducts == |r.products| && r.summary.lowStockCount == |r.lowStockProducts|
            && r.summary.outOfStockCount == |r.outOfStockProducts|
    ensures r.summary.totalStockValue == Sum(r.products, StockValue)
  {
    var active := ActiveProducts(products);
    var low := Keep(active, IsLowStock);
    var out := Keep(active, IsOutOfStock);
    ActiveProductsMultiplicity(products);
    KeepMultiplicity(active, IsLowStock);
    KeepMultiplicity(active, IsOutOfStock);
    StockReport(active, StockSummary(|active|, |low|, |out|, Sum(active, StockValue)), low, out)
  }

  /** With no negative minimum, every product out of stock is also low on
      stock, so there are never more of the first than of the second. */
  lemma OutOfStockIsLowStock(products: seq<Product>)
    requires forall p :: p in products ==> p.minStock >= 0
    ensures forall p :: p in GetStockReport(products).outOfStockProducts ==> p in GetStockReport(products).lowStockProducts
    ensures GetStockReport(products).summary.outOfStockCount <= GetStockReport(products).summary.lowStockCount
  {
    var active := ActiveProducts(products);
    assert forall k :: 0 <= k < |active| ==> active[k] in products;
    KeepStronger(active, IsOutOfStock, IsLowStock);
  }

  /** With costs and stock figures that are not negative, the stock value
      is not negative either (stock itself has no lower bound). */
  lemma StockValueNonNegative(products: seq<Product>)
    requires forall p :: p in products ==> p.cost >= 0.0 && p.stock >= 0
    ensures GetStockReport(products).summary.totalStockValue >= 0.0
  {
    var active := ActiveProducts(products);
    assert forall k :: 0 <= k < |active| ==> active[k] in products;
    SumNonNegative(active, StockValue);
  }

  // ---------------------------------------------------------- profit/loss

  datatype ProfitLoss = ProfitLoss(
    revenue: Money,
    costOfGoodsSold: Money,
    grossProfit: Money,
    grossProfitMargin: real)

  /** `margin` is `grossProfit` as a percentage of `revenue` when there is
      revenue, and zero otherwise. */
  predicate IsMarginOf(margin: real, grossProfit: real, revenue: real) {
    && (revenue > 0.0 ==> margin * revenue == grossProfit * 100.0)
    && (revenue <= 0.0 ==> margin == 0.0)
  }

  /** The statement for given revenue and cost of goods: their difference
      is the gross profit, and the margin is `(grossProfit / revenue) * 100`
      when there is revenue, else zero. */
  function ProfitLossOf(revenue: real, costOfGoodsSold: real): (r: ProfitLoss)
    ensures r.revenue == revenue && r.costOfGoodsSold == costOfGoodsSold
    ensures r.grossProfit == revenue - costOfGoodsSold
    ensures IsMarginOf(r.grossProfitMargin, r.grossProfit, revenue)
  {
    var grossProfit := revenue - costOfGoodsSold;
    ProfitLoss(revenue, costOfGoodsSold, grossProfit, if revenue > 0.0 then grossProfit / revenue * 100.0 else 0.0)
  }

  /** `getProfitLossStatement`: revenue is the period's net sales, the cost
      of goods sold its net purchases, and the margin is the gross profit
      as a percentage of revenue, or zero without revenue. */
  function GetProfitLoss(sales: seq<Sales.Sale>, purchases: seq<Purchases.Purchase>, startDate: int, endDate: int)
    : (r: ProfitLoss)
    ensures r.revenue == GetSalesReport(sales, startDate, endDate).summary.netSales
    ensures r.costOfGoodsSold == GetPurchaseReport(purchases, startDate, endDate).summary.netPurchases
    ensures r.grossProfit == r.revenue - r.costOfGoodsSold
    ensures IsMarginOf(r.grossProfitMargin, r.grossProfit, r.revenue)
  {
    ProfitLossOf(GetSalesReport(sales, startDate, endDate).summary.netSales,
                 GetPurchaseReport(purchases, startDate, endDate).summary.netPurchases)
  }

  /** With revenue and no negative cost of goods, the margin is at most a
      hundred percent, exactly a hundred iff nothing was bought, and
      negative iff more was bought than sold. */
  lemma MarginBounds(sales: seq<Sales.Sale>, purchases: seq<Purchases.Purchase>, startDate: int, endDate: int)
    requires GetProfitLoss(sales, purchases, startDate, endDate).revenue > 0.0
    ensures var r := GetProfitLoss(sales, purchases, startDate, endDate);
            (r.costOfGoodsSold >= 0.0 ==> r.grossProfitMargin <= 100.0)
            && (r.grossProfitMargin == 100.0 <==> r.costOfGoodsSold == 0.0)
            && (r.grossProfitMargin < 0.0 <==> r.costOfGoodsSold > r.revenue)
  {
    var r := GetProfitLoss(sales, purchases, startDate, endDate);
    MarginOfCosts(r.revenue, r.costOfGoodsSold, r.grossProfit, r.grossProfitMargin);
  }

  /** The margin's bounds as arithmetic on revenue and costs alone. */
  lemma MarginOfCosts(revenue: real, costs: real, grossProfit: real, margin: real)
    requires revenue > 0.0 && grossProfit == revenue - costs
    requires IsMarginOf(margin, grossProfit, revenue)
    ensures costs >= 0.0 ==> margin <= 100.0
    ensures margin == 100.0 <==> costs == 0.0
    ensures margin < 0.0 <==> costs > revenue
  {
    assert (margin - 100.0) * revenue == -costs * 100.0;
    SignOfProduct(margin - 100.0, revenue);
    SignOfProduct(margin, revenue);
  }

  lemma SignOfProduct(a: real, b: real)
    requires b > 0.0
    ensures a > 0.0 <==> a * b > 0.0
    ensures a < 0.0 <==> a * b < 0.0
  {
  }

  // -------------------------------------------------------- sale returns

  function SaleReturnTotal(r: SaleReturns.SaleReturn): real { r.totalAmount }
  function SaleReturnRefund(r: SaleReturns.SaleReturn): real { r.refundAmount }
  predicate SaleReturnApproved(r: SaleReturns.SaleReturn) {
    r.status == SaleReturns.Approved || r.status == SaleReturns.Completed
  }
  predicate SaleReturnPending(r: SaleReturns.SaleReturn) { r.status == SaleReturns.Pending }
  predicate SaleReturnRejected(r: SaleReturns.SaleReturn) { r.status == SaleReturns.Rejected }

  datatype ReturnsSummary = ReturnsSummary(
    totalReturns: Money,
    totalSettled: Money,
    returnsCount: nat,
    approvedCount: nat,
    pendingCount: nat,
    rejectedCount: nat)

  /** `getSaleReturnsReport`'s summary: the returns created in the period,
      their total and refunds, and the counts of approved (approved or
      completed), pending and rejected ones. */
  function GetSaleReturnsSummary(saleReturns: seq<SaleReturns.SaleReturn>, startDate: int, endDate: int)
    : (r: ReturnsSummary)
    ensures var rows := Within(saleReturns, SaleReturns.ReturnCreatedAt, startDate, endDate);
            && r.returnsCount == |rows|
            && r.totalReturns == Sum(rows, SaleReturnTotal) && r.totalSettled == Sum(rows, SaleReturnRefund)
            && r.approvedCount == Count(rows, SaleReturnApproved)
            && r.pendingCount == Count(rows, SaleReturnPending) && r.rejectedCount == Count(rows, SaleReturnRejected)
    ensures r.approvedCount + r.pendingCount + r.rejectedCount == r.returnsCount
  {
    var rows := Within(saleReturns, SaleReturns.ReturnCreatedAt, startDate, endDate);
    CountsOfExclusiveTests(rows, SaleReturnApproved, SaleReturnPending, SaleReturnRejected);
    ReturnsSummary(Sum(rows, SaleReturnTotal), Sum(rows, SaleReturnRefund), |rows|,
                   Count(rows, SaleReturnApproved), Count(rows, SaleReturnPending), Count(rows, SaleReturnRejected))
  }

  /** Refunds are only ever given on approval, so while every return of
      the period is still pending or rejected the refunds add up to zero. */
  lemma NoRefundBeforeApproval(saleReturns: seq<SaleReturns.SaleReturn>, startDate: int, endDate: int)
    requires forall r :: r in saleReturns ==> SaleReturns.WellFormed(r)
    requires GetSaleReturnsSummary(saleReturns, startDate, endDate).approvedCount == 0
    ensures GetSaleReturnsSummary(saleReturns, startDate, endDate).totalSettled == 0.0
  {
    var rows := Within(saleReturns, SaleReturns.ReturnCreatedAt, startDate, endDate);
    ZeroWhenNoneApproved(rows);
  }

  lemma {:induction false} ZeroWhenNoneApproved(rows: seq<SaleReturns.SaleReturn>)
    requires forall r :: r in rows ==> SaleReturns.WellFormed(r)
    requires Count(rows, SaleReturnApproved) == 0
    ensures Sum(rows, SaleReturnRefund) == 0.0
    decreases |rows|
  {
    if |rows| > 0 {
      assert rows[0] in rows && !SaleReturnApproved(rows[0]);
      ZeroWhenNoneApproved(rows[1..]);
    }
  }

  // ---------------------------------------------------- purchase returns

  function PurchaseReturnTotal(r: PurchaseReturns.PurchaseReturn): real { r.totalAmount }
  function PurchaseReturnCredit(r: PurchaseReturns.PurchaseReturn): real { r.creditAmount }
  predicate PurchaseReturnPending(r: PurchaseReturns.PurchaseReturn) { r.status == PurchaseReturns.Pending }
  predicate PurchaseReturnRejected(r: PurchaseReturns.PurchaseReturn) { r.status == PurchaseReturns.Rejected }

  /** The approved test as the purchase-returns report writes it: approved
      or completed, which leaves shipped returns out. */
  predicate PurchaseReturnApprovedAsWritten(r: PurchaseReturns.PurchaseReturn) {
    r.status == PurchaseReturns.Approved || r.status == PurchaseReturns.Completed
  }

  /** A shipped return is counted as neither approved, pending nor
      rejected by the test as written, so the three counts fall short of
      the number of returns. */
  lemma ShippedReturnIsUncounted(r: PurchaseReturns.PurchaseReturn)
    requires r.status == PurchaseReturns.Shipped
    ensures Count([r], PurchaseReturnApprovedAsWritten) + Count([r], PurchaseReturnPending)
            + Count([r], PurchaseReturnRejected) == 0 < |[r]|
  {
    assert [r][1..] == [];
  }

  /** Approved in the sense the sale-returns report uses: the return has
      been approved, whatever happened after (shipped or completed). */
  predicate PurchaseReturnApproved(r: PurchaseReturns.PurchaseReturn) {
    r.status == PurchaseReturns.Approved || r.status == PurchaseReturns.Shipped || r.status == PurchaseReturns.Completed
  }

  /** `getPurchaseReturnsReport`'s summary, with shipped returns counted as
      approved: the returns created in the period, their total and
      credits, and the approved, pending and rejected counts. */
  function GetPurchaseReturnsSummary(purchaseReturns: seq<PurchaseReturns.PurchaseReturn>, startDate: int, endDate: int)
    : (r: ReturnsSummary)
    ensures var rows := Within(purchaseReturns, PurchaseReturns.ReturnCreatedAt, startDate, endDate);
            && r.returnsCount == |rows|
            && r.totalReturns == Sum(rows, PurchaseReturnTotal) && r.totalSettled == Sum(rows, PurchaseReturnCredit)
            && r.approvedCount == Count(rows, PurchaseReturnApproved)
            && r.pendingCount == Count(rows, PurchaseReturnPending) && r.rejectedCount == Count(rows, PurchaseReturnRejected)
    ensures r.approvedCount + r.pendingCount + r.rejectedCount == r.returnsCount
  {
    var rows := Within(purchaseReturns, PurchaseReturns.ReturnCreatedAt, startDate, endDate);
    CountsOfExclusiveTests(rows, PurchaseReturnApproved, PurchaseReturnPending, PurchaseReturnRejected);
    ReturnsSummary(Sum(rows, PurchaseReturnTotal), Sum(rows, PurchaseReturnCredit), |rows|,
                   Count(rows, PurchaseReturnApproved), Count(rows, PurchaseReturnPending),
                   Count(rows, PurchaseReturnRejected))
  }

  // -------------------------------------------------------------- overview

  datatype ReturnsOverview = ReturnsOverview(
    saleReturns: ReturnsSummary,
    purchaseReturns: ReturnsSummary,
    totalReturnValue: Money)

  /** `getReturnsOverview`: both summaries of the period and the value of
      all its returns of either kind. */
  function GetReturnsOverview(saleReturns: seq<SaleReturns.SaleReturn>,
                              purchaseReturns: seq<PurchaseReturns.PurchaseReturn>, startDate: int, endDate: int)
    : (r: ReturnsOverview)
    ensures r.saleReturns == GetSaleReturnsSummary(saleReturns, startDate, endDate)
    ensures r.purchaseReturns == GetPurchaseReturnsSummary(purchaseReturns, startDate, endDate)
    ensures r.totalReturnValue
         == Sum(Within(saleReturns, SaleReturns.ReturnCreatedAt, startDate, endDate), SaleReturnTotal)
            + Sum(Within(purchaseReturns, PurchaseReturns.ReturnCreatedAt, startDate, endDate), PurchaseReturnTotal)
  {
    var s := GetSaleReturnsSummary(saleReturns, startDate, endDate);
    var p := GetPurchaseReturnsSummary(purchaseReturns, startDate, endDate);
    ReturnsOverview(s, p, s.totalReturns + p.totalReturns)
  }
}
