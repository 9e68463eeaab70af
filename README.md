# Point-of-sale bookkeeping core in Dafny

This project models the business rules of a point-of-sale and accounting
back end: a double-entry journal over a chart of accounts, a product
table with stock figures, sales and purchase orders, sale returns and
purchase returns with their approval workflows, the date-scoped document
numbers every workflow mints, the ledger queries, the reports, and the
role guard in front of the HTTP routes. It proves properties of that
model.

## Modules

- `Accounting` (`accounting.dfy`) models the accounting service. It
  covers journal admission, the balance-check tolerance and the
  line-by-line posting loop. It also covers the per-type polarity of a
  debit or credit, the sale, payment and adjustment line sets, the trial
  balance, the journal listing with its paging, the account statement and
  the balance query. `AccountingService` is a class. Its journal tables
  are `seq` fields, and its methods post into the `AccountRegistry`.
- `Accounts` (`accounts.dfy`) models the chart of accounts as the class
  `AccountRegistry`. Create checks code and name uniqueness; update is
  `Object.assign`; remove is soft. The module also holds the accounting
  identity: the signed sum of the balances. Posting calls a balance
  update that the accounts service does not define; the model supplies
  one (see "## Left out").
- `Ledger` (`ledger.dfy`) models the general ledger, the account ledger
  and the day book as filters and orderings.
- `Ordering` (`ordering.dfy`) models `ORDER BY` on a two-part key as an
  insertion sort, plus `skip`/`take`.
- `Numbering` (`numbering.dfy`) models the one generator behind `JE-`,
  `INV-`, `PO-`, `RET-` and `PRET-` numbers. That includes `split("-")`,
  `Number.parseInt` (NaN included) and `padStart`.
- `Products` (`products.dfy`) models the product table as the class
  `ProductCatalog`. It also gives a specification of a run of signed
  stock updates: the loop that the purchase and return workflows issue.
- `Sales`, `Purchases`, `SaleReturns` and `PurchaseReturns` are the four
  workflow services, each a class over its table. Their item loops are
  `while` loops proved against recursive specification functions. Status
  changes are pure transition functions, and lemmas over any sequence of
  actions say which states can be reached.
- `Reports` (`reports.dfy`) models the report aggregations: period
  filters, sums and counts, and the lemmas relating them.
- `Roles` (`roles.dfy`) models the role guard's decision.

### How the model represents the system

- Money is an exact `real`; stock and quantities are `int`.
- Calendar dates are `CalendarDate` values. Creation instants are
  integer milliseconds.
- The clock, new row identifiers and the acting user are parameters.
- Every exception the services throw is an `Err` value of `Common.Error`,
  returned before any later write happens. Writes made before the throw
  stay made, as in the source.

## Model

| member | source | states |
|---|---|---|
| Accounting.PolarityTable | src/ledger/accounting.service.ts:103-141 | a debit adds the amount to Asset/Expense balances and subtracts it from Liability/Equity/Income balances; a credit is exactly the negation; seen through the account's sign the change is +amount for a debit and −amount for a credit |
| Accounting.LineCheck | src/ledger/accounting.service.ts:56-62 | a line passes iff its account exists and is active; otherwise the error is NotFound("Account") or InactiveAccount |
| Accounting.AllAccountsPostable | src/ledger/accounting.service.ts:56-62 | the account loop passes iff every line names an existing, active account |
| Accounting.FirstUnpostableLine | src/ledger/accounting.service.ts:56-62 | when the account loop fails, it reports the error of a line such that every earlier line was postable (the loop stops at the first bad line) |
| Accounting.Admission | src/ledger/accounting.service.ts:42-62 | an entry whose debit and credit sums differ by more than 0.01 is refused with Unbalanced, whatever its accounts; an entry is admitted iff the difference is at most 0.01 and every line's account exists and is active |
| Accounting.UnbalancedRefusedFirst | src/ledger/accounting.service.ts:50-54 | an entry of 100 debit against 90 credit is refused as unbalanced, even when its accounts do not exist |
| Accounting.ToleranceBoundary | src/ledger/accounting.service.ts:50 | a difference of exactly 0.01 is admitted and one of 0.02 is refused |
| Accounting.AdmittedEntryIsBalanced | src/ledger/accounting.service.ts:50-54 | every admitted entry has debit and credit sums within 0.01 of each other |
| Accounting.PostLine | src/ledger/accounting.service.ts:96-97 | posting a line changes balances only: every other field of every account is kept |
| Accounting.PostLines | src/ledger/accounting.service.ts:82-98 | posting an entry changes balances only |
| Accounting.PostLineShiftsIdentity | src/ledger/accounting.service.ts:103-141 | one posted line moves the accounting identity (signed sum of all balances, and of the active ones when the account is active) by +amount for a debit and −amount for a credit |
| Accounting.PostingShiftsIdentity | src/ledger/accounting.service.ts:82-98 | posting an entry moves the accounting identity by exactly ΣDebit − ΣCredit |
| Accounting.PostingShiftsActiveIdentity | src/ledger/accounting.service.ts:82-98 | when every line names an active account, posting moves the identity over active accounts by exactly ΣDebit − ΣCredit |
| Accounting.PostingPerAccount | src/ledger/accounting.service.ts:82-141 | after posting, each account's balance is its old balance plus the polarity-signed amounts of the lines that name it, so an account no line names keeps its balance |
| Accounting.SaleLinesBalance | src/ledger/accounting.service.ts:145-177 | the sale lines debit the paid amount and credit max(paid, total), so the entry balances when paid ≥ total and is short by total − paid otherwise |
| Accounting.SaleCashNetsTotal | src/ledger/accounting.service.ts:168-177 | on an overpaid sale the cash account nets +total after the change-back line, and the sales account gains total |
| Accounting.TwoLegSetsBalance | src/ledger/accounting.service.ts:199-212 | payment and adjustment each build two legs of one amount on opposite sides, so their debit and credit sums are equal; the adjustment's second leg targets the fixed adjustment account id |
| Accounting.AdjustmentNeedsPlaceholderAccount | src/ledger/accounting.service.ts:232-249 | when no account carries the fixed adjustment id, every adjustment on an active account is refused with NotFound("Account") |
| Accounting.Columns | src/ledger/accounting.service.ts:371-395 | each account puts its balance in exactly one column, both columns are non-negative, and debit − credit is the balance seen through the account's sign |
| Accounting.ColumnTotalsDifference | src/ledger/accounting.service.ts:366-411 | the debit-column total minus the credit-column total is the accounting identity of the listed accounts |
| Accounting.TrialDifferenceIsActiveIdentity | src/ledger/accounting.service.ts:366-411 | the trial balance's column difference equals the accounting identity over active accounts |
| Accounting.PostingMovesTrialBalance | src/ledger/accounting.service.ts:82-98 | posting lines on active accounts moves the trial balance's column difference by ΣDebit − ΣCredit |
| Accounting.AdmittedEntryShiftsTrialBalance | src/ledger/accounting.service.ts:42-98 | an admitted entry moves the column difference by exactly ΣDebit − ΣCredit |
| Accounting.TrialShiftWithinTolerance | src/ledger/accounting.service.ts:50 | a shift by ΣDebit − ΣCredit within the tolerance moves the column difference by at most 0.01 |
| Accounting.AdmittedEntryMovesTrialBalanceByAtMostTolerance | src/ledger/accounting.service.ts:37-101 | an admitted entry moves the trial balance's column difference by exactly ΣDebit − ΣCredit, hence by at most 0.01 |
| Accounting.MatchingEntries | src/ledger/accounting.service.ts:291-305 | an entry is listed iff it satisfies every filter given: transaction type, inclusive date bounds and an account named by one of its lines |
| Accounting.MatchingEntriesMultiplicity | src/ledger/accounting.service.ts:291-305 | the filter keeps every matching entry exactly as often as it is stored and drops every other one |
| Accounting.PageCount | src/ledger/accounting.service.ts:312 | the page count is the least number of pages of `limit` rows that holds all matches (ceil(total/limit)) |
| Accounting.StatementRows | src/ledger/accounting.service.ts:329-341 | a joined line is in the statement iff it belongs to the account and its entry's date is within whichever bounds are given |
| Accounting.JoinedMultiplicity | src/ledger/accounting.service.ts:329-333 | the join lists each stored line once per copy, paired with the entry it belongs to, and nothing else |
| Accounting.StatementRowsMultiplicity | src/ledger/accounting.service.ts:329-341 | the statement filter keeps each of the account's rows within the bounds exactly as often as it occurs and drops the others |
| Accounting.AccountingService.CheckAccounts | src/ledger/accounting.service.ts:57-62 | the account loop returns exactly the account check of the lines |
| Accounting.AccountingService.PostOne | src/ledger/accounting.service.ts:82-97 | one loop step stores the line row and applies its polarity-signed delta to its account, leaving the entries unchanged |
| Accounting.AccountingService.PostAll | src/ledger/accounting.service.ts:82-98 | the posting loop leaves the accounts as `PostLines` of the old accounts and appends one stored line per request line, in order |
| Accounting.AccountingService.CreateJournalEntry | src/ledger/accounting.service.ts:37-101 | a refused entry changes nothing and returns the refusal; an admitted one is stored with the next JE number and ΣDebit as its total amount, its lines are stored, and the balances are posted |
| Accounting.AccountingService.RecordSaleTransaction | src/ledger/accounting.service.ts:145-190 | journals the sale lines as a Sale entry referencing the sale, with the same admission rule |
| Accounting.AccountingService.RecordPayment | src/ledger/accounting.service.ts:192-223 | journals the two payment legs as a Payment entry |
| Accounting.AccountingService.RecordAdjustment | src/ledger/accounting.service.ts:225-260 | journals the adjusted leg and its flipped balancing leg to the fixed adjustment id as an Adjustment entry |
| Accounting.AccountingService.GetTrialBalance | src/ledger/accounting.service.ts:356-413 | the rows are the active accounts' columns; the totals are the column sums, both non-negative, and differ by the active accounting identity; the result is balanced iff the totals differ by less than 0.01; the date argument plays no part |
| Accounting.AccountingService.GetJournalEntries | src/ledger/accounting.service.ts:276-315 | the page is exactly the `limit` rows after the first (page − 1)·limit of the matches sorted newest transaction date first (then newest creation); it is sorted and holds only matches; the total counts every match, and the page count is ceil(total/limit) |
| Accounting.AccountingService.GetAccountStatement | src/ledger/accounting.service.ts:317-354 | unknown account: NotFound; otherwise the account's joined lines within the given bounds, each exactly as often as it is stored, oldest first, with opening balance 0 and the current balance as closing balance |
| Accounting.AccountingService.GetAccountBalance | src/ledger/accounting.service.ts:415-436 | corrected query (entry selected by the join): unknown account gives NotFound; otherwise the current balance and, iff the account has a line, the transaction date of one of its lines that no other line of the account exceeds |
| Accounting.AccountingService.GetAccountBalanceAsWritten | src/ledger/accounting.service.ts:415-436 | the query as written: unknown account gives NotFound; otherwise the current balance and never a last transaction date, because the joined entry is not selected |
| Accounting.AccountingService.LastDateLostAsWritten | src/ledger/accounting.service.ts:425-434 | for an account with a posted line, the as-written query reports no last transaction date while the corrected one reports one |
| Accounts.Lookup | src/accounts/accounts.service.ts:32-38 | findOne succeeds iff some account has the id, and returns that record unchanged; otherwise NotFound("Account") |
| Accounts.ActiveAccountsMembers | src/accounts/accounts.service.ts:28-30 | the active listing holds exactly the accounts whose active flag is set, each as often as it is stored |
| Accounts.AddToBalanceIdentity | src/ledger/accounting.service.ts:141 | applying a delta to one account moves the accounting identity by that delta seen through the account's sign (over active accounts only when that account is active) |
| Accounts.ActiveIdentityIsIdentityOfActive | src/accounts/accounts.service.ts:28-30 | the identity over active accounts is the identity of the active listing |
| Accounts.AllActiveIdentity | src/accounts/accounts.service.ts:28-30 | when every account is active, the two identities agree |
| Accounts.UpdateCanDuplicateName | src/accounts/accounts.service.ts:40-44 | update does not re-check uniqueness: keeping its own code, an account can take the name of another, which create would have refused (the name column has no unique index) |
| Accounts.AccountRegistry.Create | src/accounts/accounts.service.ts:15-26 | fails with the conflict message iff an account shares the code or the name; otherwise appends exactly one new account, active and with balance 0 |
| Accounts.AccountRegistry.FindAll | src/accounts/accounts.service.ts:28-30 | returns exactly the active accounts, each as often as it is stored |
| Accounts.AccountRegistry.FindOne | src/accounts/accounts.service.ts:32-38 | the record with the id, or NotFound("Account") |
| Accounts.AccountRegistry.Update | src/accounts/accounts.service.ts:40-44 | overwrites the supplied fields of that one record and leaves every other account unchanged; NotFound otherwise |
| Accounts.AccountRegistry.Remove | src/accounts/accounts.service.ts:46-50 | clears only the active flag of that one record (balance kept); NotFound otherwise |
| Accounts.AccountRegistry.UpdateBalance | src/ledger/accounting.service.ts:141 | adds the delta to the balance of that one record and changes nothing else; NotFound otherwise |
| Ledger.EntriesInPeriod | src/ledger/ledger.service.ts:18 | the date filter applies only when both bounds are given (inclusive); with either bound missing every entry is kept |
| Ledger.EntriesInPeriodMultiplicity | src/ledger/ledger.service.ts:18 | the period filter keeps each entry of the period exactly as often as it is stored and drops the others |
| Ledger.GeneralLedger | src/ledger/ledger.service.ts:17-25 | the entries of the period, each exactly as often as it is stored, ordered by date and then creation time ascending; with a bound missing, all entries |
| Ledger.OneBoundIsIgnored | src/ledger/ledger.service.ts:18 | a single bound yields the same entries as no bound |
| Ledger.AccountRows | src/ledger/ledger.service.ts:32-36 | a joined line is kept iff it belongs to the account and, when both bounds are given, its entry lies between them |
| Ledger.AccountRowsMultiplicity | src/ledger/ledger.service.ts:32-36 | the account filter keeps each of the account's rows in the period exactly as often as it occurs and drops the others |
| Ledger.AccountLedger | src/ledger/ledger.service.ts:27-39 | the account's joined lines in the period, each exactly as often as it is stored, ordered by date and then creation time ascending |
| Ledger.LedgerAgreesWithStatement | src/ledger/ledger.service.ts:27-39 | with both bounds given, the account ledger and the account statement hold the same lines |
| Ledger.EntriesCreatedBetween | src/ledger/ledger.service.ts:48-51 | an entry is kept iff its creation instant lies in the inclusive range |
| Ledger.EntriesCreatedBetweenMultiplicity | src/ledger/ledger.service.ts:48-51 | the window filter keeps each entry created in the range exactly as often as it is stored and drops the others |
| Ledger.DayBook | src/ledger/ledger.service.ts:41-55 | the entries created between 00:00:00.000 and 23:59:59.999 of the day, each exactly as often as it is stored, ordered by creation time |
| Ledger.DayBookIsOneDay | src/ledger/ledger.service.ts:42-46 | an entry is in the day book iff it was created on the same day as the given instant |
| Ordering.Insert | src/ledger/ledger.service.ts:23 | inserting into an ordered listing keeps it ordered and adds exactly that row |
| Ordering.SortBy | src/ledger/ledger.service.ts:23 | the rows, each exactly once, in key order |
| Ordering.SkipTake | src/ledger/accounting.service.ts:307-310 | at most `limit` rows, the ones starting at the offset, in order |
| Ordering.SkipTakeSorted | src/ledger/accounting.service.ts:307-310 | a page of an ordered listing is ordered and holds only listed rows |
| Numbering.NewestIndex | src/ledger/accounting.service.ts:442-445 | the row read is one with the greatest creation time, and there is one iff the table is not empty |
| Numbering.NatToStringValue | src/ledger/accounting.service.ts:453 | a rendered sequence number reads back as its value |
| Numbering.PaddedValue | src/ledger/accounting.service.ts:453 | zero padding keeps the digits and the value |
| Numbering.DateStampShape | src/ledger/accounting.service.ts:440 | a valid date renders as eight digits that read back as year, month and day |
| Numbering.DateStampInjective | src/ledger/accounting.service.ts:440 | distinct valid dates have distinct stamps |
| Numbering.DateStampDigits | src/ledger/accounting.service.ts:440 | a stamp has only digits, so it has no dash |
| Numbering.SplitThree | src/ledger/accounting.service.ts:449 | three dash-free fields joined by dashes split back into themselves |
| Numbering.ParseFormatted | src/ledger/accounting.service.ts:449 | the parse step reads the sequence of a well-formed number back |
| Numbering.FormatInjective | src/ledger/accounting.service.ts:453 | numbers of one prefix and day differ when their sequences differ |
| Numbering.FirstNumberOfTable | src/ledger/accounting.service.ts:447-453 | an empty table starts at 0001 |
| Numbering.SameDaySequence | src/ledger/accounting.service.ts:448-450 | a newest number of today yields the next sequence |
| Numbering.NextOnSameDay | src/ledger/accounting.service.ts:438-454 | after `P-YYYYMMDD-n` the next number of the day is `P-YYYYMMDD-(n+1)` |
| Numbering.ResetOnNewDay | src/ledger/accounting.service.ts:447-453 | a newest number from another day restarts at 0001 |
| Numbering.MissingSequenceYieldsNaN | src/ledger/accounting.service.ts:448-453 | a newest number with today's prefix but no third field makes the sequence NaN, and the generator emits `0NaN` |
| Products.FindProduct | src/products/products.service.ts:34-43 | the product with the id, or NotFound("Product") |
| Products.ActiveProducts | src/products/products.service.ts:27-32 | exactly the active products |
| Products.ActiveProductsMultiplicity | src/products/products.service.ts:27-32 | the active filter keeps each active product exactly as often as it is stored and drops the others |
| Products.AddStockKeepsOtherFields | src/products/products.service.ts:56-60 | a stock update changes only that product's stock, by exactly the signed quantity |
| Products.ApplyChangesKeepsOtherFields | src/purchases/purchases.service.ts:97-99 | a run of stock updates changes stock figures only, whether it completes or not |
| Products.ApplyChangesFailure | src/purchases/purchases.service.ts:97-99 | a run fails only with NotFound("Product"), and completes iff every change names a known product |
| Products.ApplyChangesPerProduct | src/purchases/purchases.service.ts:97-99 | after a completed run each product's stock is its old stock plus the net quantity requested for it |
| Products.IncomingNeverLowersStock | src/purchases/purchases.service.ts:97-99 | positive changes give each product a non-negative net change, positive when it is named |
| Products.OutgoingNeverRaisesStock | src/purchases/purchase-returns.service.ts:115-117 | negative changes give each product a non-positive net change, negative when it is named |
| Products.ProductCatalog.Create | src/products/products.service.ts:14-25 | fails with the conflict message iff a product shares the sku or, when one is given, the barcode; otherwise appends exactly one product |
| Products.ProductCatalog.FindAll | src/products/products.service.ts:27-32 | returns exactly the active products, each as often as it is stored |
| Products.ProductCatalog.FindOne | src/products/products.service.ts:34-43 | the product with the id, or NotFound("Product") |
| Products.ProductCatalog.FindByBarcode | src/products/products.service.ts:45-54 | succeeds iff an active product has the barcode; inactive ones are not found |
| Products.ProductCatalog.UpdateStock | src/products/products.service.ts:56-60 | adds the signed quantity to that product's stock, with no lower bound; NotFound otherwise |
| Products.ProductCatalog.UpdateStocks | src/purchases/purchases.service.ts:97-99 | the update loop leaves the table as the specified run does and reports the run's failure |
| Products.ProductCatalog.Update | src/products/products.service.ts:62-66 | overwrites the supplied fields of that one product; NotFound otherwise |
| Products.ProductCatalog.Remove | src/products/products.service.ts:68-72 | clears only the active flag of that one product; NotFound otherwise |
| Products.RemovedProductIsHidden | src/products/products.service.ts:27-72 | a removed product drops out of the active listing but is still found by id |
| Sales.RowsAddUpToSubtotal | src/sales/sales.service.ts:34-42 | each stored item carries quantity × unit price, and the item totals add up to the subtotal |
| Sales.SellStepOutcome | src/sales/sales.service.ts:27-45 | one item: NotFound iff no product has the id; passes iff the product's stock covers the quantity, and then only that product's stock drops by it; a failure changes nothing |
| Sales.SellPerProduct | src/sales/sales.service.ts:26-46 | after a completed item loop each product's stock has dropped by the total quantity sold of it |
| Sales.SellingKeepsStockNonNegative | src/sales/sales.service.ts:30-32 | the stock check keeps non-negative stock non-negative, whatever the loop meets |
| Sales.SaleNeverOversells | src/sales/sales.service.ts:26-46 | a completed sale never sells more of a product than it had in stock |
| Sales.SaleRecord | src/sales/sales.service.ts:48-70 | total = subtotal − discount + tax, change = paid − total, the subtotal is the items' sum, and the status is COMPLETED |
| Sales.StoredSaleIsPaidInFull | src/sales/sales.service.ts:48-53 | the change is non-negative iff paid covers subtotal − discount + tax, and the stored items add up to the subtotal |
| Sales.SalesService.FindOne | src/sales/sales.service.ts:93-102 | the sale with the id, or NotFound("Sale") |
| Sales.SalesService.SellItem | src/sales/sales.service.ts:27-45 | one loop step leaves the catalog as the specified step does |
| Sales.SalesService.SellAll | src/sales/sales.service.ts:26-46 | the item loop leaves the catalog as the specified run does; when it completes it returns the subtotal and the item rows |
| Sales.SalesService.Create | src/sales/sales.service.ts:21-84 | stock decrements made before a failing item stay made; a short payment fails with "Insufficient payment" after the stock moved; otherwise the sale is stored with the next INV number |
| Purchases.RowsAddUpToSubtotal | src/purchases/purchases.service.ts:27-38 | each stored item carries quantity × unit cost, and the item totals add up to the subtotal |
| Purchases.Incoming | src/purchases/purchases.service.ts:97-99 | receipt asks for one positive stock change per item, in order |
| Purchases.Receipt | src/purchases/purchases.service.ts:92-101 | receipt succeeds iff the purchase is PENDING, and then only the status becomes RECEIVED; otherwise a plain error |
| Purchases.ReceivingTwiceFails | src/purchases/purchases.service.ts:89-103 | a received purchase cannot be received again, so its stock is added at most once |
| Purchases.PurchaseRecord | src/purchases/purchases.service.ts:40-55 | total = subtotal − discount + tax, the subtotal is the items' sum, the status is PENDING, and the supplier is copied |
| Purchases.PurchasesService.FindOne | src/purchases/purchases.service.ts:78-87 | the purchase with the id, or NotFound("Purchase") |
| Purchases.PurchasesService.CostItems | src/purchases/purchases.service.ts:27-38 | the item loop fails with NotFound("Product") iff some item names an unknown product; otherwise it returns the subtotal and the item rows |
| Purchases.PurchasesService.Create | src/purchases/purchases.service.ts:22-69 | unknown product: NotFound and nothing stored; otherwise the purchase is stored with the next PO number |
| Purchases.PurchasesService.Receive | src/purchases/purchases.service.ts:89-103 | unknown id: NotFound; not pending: the status error; otherwise the stock run of its items, with the status becoming RECEIVED only when the run completes |
| Purchases.ReceiptRaisesStock | src/purchases/purchases.service.ts:97-99 | a completed receipt raises each product's stock by its net received quantity, never lowering it |
| SaleReturns.LineCheck | src/sales/sale-returns.service.ts:35-45 | a return line passes iff it names an item of the sale and does not exceed that item's quantity; the error says which check failed |
| SaleReturns.AllLinesPass | src/sales/sale-returns.service.ts:33-45 | the item loop passes iff every line passes on its own |
| SaleReturns.FirstFailureIsFirst | src/sales/sale-returns.service.ts:33-45 | a failing loop reports the error of a line that all earlier lines passed before |
| SaleReturns.LinesAreCheckedAlone | src/sales/sale-returns.service.ts:41 | the check is per line: two lines each returning the whole quantity of one item both pass |
| SaleReturns.RowsAddUpToTotal | src/sales/sale-returns.service.ts:47-57 | each return row carries quantity × unit price, and the rows add up to the total amount |
| SaleReturns.ReturnRecord | src/sales/sale-returns.service.ts:63-71 | a new return is PENDING with the total of its lines, a refund of 0, and the sale and notes given |
| SaleReturns.SaleCheck | src/sales/sale-returns.service.ts:25-45 | only a completed sale can be returned against; then the line checks decide |
| SaleReturns.Approval | src/sales/sale-returns.service.ts:108-123 | approval succeeds iff the return is PENDING; it sets APPROVED, the refund, the approver and the instant, and appends non-empty approval notes |
| SaleReturns.Rejection | src/sales/sale-returns.service.ts:131-140 | rejection succeeds iff PENDING; it sets REJECTED, the approver and the instant, and appends the reason to the notes |
| SaleReturns.Completion | src/sales/sale-returns.service.ts:146-151 | completion succeeds iff APPROVED, and changes only the status, to COMPLETED |
| SaleReturns.StepTransitions | src/sales/sale-returns.service.ts:105-152 | the only transitions are pending→approved, pending→rejected and approved→completed; rejected and completed are final; items are kept and notes only grow |
| SaleReturns.ApprovedAtMostOnce | src/sales/sale-returns.service.ts:108-117 | along any sequence of actions a return is approved at most once, so its stock is added back at most once |
| SaleReturns.CompletedWasApproved | src/sales/sale-returns.service.ts:105-152 | a rejected return stays rejected, and a pending return that ends approved or completed was approved exactly once |
| SaleReturns.Restock | src/sales/sale-returns.service.ts:113-115 | approval asks for one positive stock change per returned item, in order |
| SaleReturns.RestockRaisesStock | src/sales/sale-returns.service.ts:113-115 | a completed restock raises each product's stock by its net returned quantity, never lowering it |
| SaleReturns.SaleReturnsService.FindOne | src/sales/sale-returns.service.ts:94-103 | the return with the id, or NotFound("Sale return") |
| SaleReturns.SaleReturnsService.Create | src/sales/sale-returns.service.ts:21-85 | unknown sale, a sale not completed, or a failing line: that error and nothing stored; otherwise the return is stored with the next RET number |
| SaleReturns.SaleReturnsService.Approve | src/sales/sale-returns.service.ts:105-126 | unknown id or not pending: the error and nothing changed; otherwise the restock run, with the approved record stored only when the run completes |
| SaleReturns.SaleReturnsService.Reject | src/sales/sale-returns.service.ts:128-141 | the record becomes its rejection when it was pending; otherwise the error and nothing changed |
| SaleReturns.SaleReturnsService.Complete | src/sales/sale-returns.service.ts:143-152 | the record becomes its completion when it was approved; otherwise the error and nothing changed |
| PurchaseReturns.LineCheck | src/purchases/purchase-returns.service.ts:35-45 | a return line passes iff it names an item of the purchase and does not exceed its quantity |
| PurchaseReturns.AllLinesPass | src/purchases/purchase-returns.service.ts:33-45 | the item loop passes iff every line passes on its own |
| PurchaseReturns.FirstFailureIsFirst | src/purchases/purchase-returns.service.ts:33-45 | a failing loop reports the error of a line that all earlier lines passed before |
| PurchaseReturns.LinesAreCheckedAlone | src/purchases/purchase-returns.service.ts:41 | the check is per line: two lines each returning the whole quantity of one item both pass |
| PurchaseReturns.RowsAddUpToTotal | src/purchases/purchase-returns.service.ts:47-57 | each return row carries quantity × unit cost, and the rows add up to the total amount |
| PurchaseReturns.ReturnRecord | src/purchases/purchase-returns.service.ts:63-73 | a new return is PENDING with the total of its lines, a credit of 0, and the supplier name and contact of the purchase |
| PurchaseReturns.OrderCheck | src/purchases/purchase-returns.service.ts:25-45 | only a received purchase can be returned against; then the line checks decide |
| PurchaseReturns.Approval | src/purchases/purchase-returns.service.ts:110-125 | approval succeeds iff PENDING; it sets APPROVED, the credit, the approver and the instant, and appends non-empty approval notes |
| PurchaseReturns.Rejection | src/purchases/purchase-returns.service.ts:133-140 | rejection succeeds iff PENDING; it sets REJECTED and appends the reason to the notes |
| PurchaseReturns.Shipment | src/purchases/purchase-returns.service.ts:148-152 | shipping succeeds iff APPROVED, and changes only the status, to SHIPPED |
| PurchaseReturns.Completion | src/purchases/purchase-returns.service.ts:159-163 | completion succeeds iff SHIPPED, and changes only the status, to COMPLETED |
| PurchaseReturns.StepTransitions | src/purchases/purchase-returns.service.ts:107-165 | the only transitions are pending→approved, pending→rejected, approved→shipped and shipped→completed; rejected and completed are final; items are kept and notes only grow |
| PurchaseReturns.ApprovedAtMostOnce | src/purchases/purchase-returns.service.ts:110-119 | along any sequence of actions a return is approved at most once, so its stock is removed at most once |
| PurchaseReturns.CompletedWasApproved | src/purchases/purchase-returns.service.ts:107-165 | a rejected return stays rejected, and a pending return that ends approved, shipped or completed was approved exactly once |
| PurchaseReturns.Dispatch | src/purchases/purchase-returns.service.ts:115-117 | approval asks for one negative stock change per returned item, in order |
| PurchaseReturns.DispatchLowersStock | src/purchases/purchase-returns.service.ts:115-117 | a completed dispatch lowers each product's stock by its net returned quantity, never raising it |
| PurchaseReturns.PurchaseReturnsService.FindOne | src/purchases/purchase-returns.service.ts:96-105 | the return with the id, or NotFound("Purchase return") |
| PurchaseReturns.PurchaseReturnsService.Create | src/purchases/purchase-returns.service.ts:21-87 | unknown purchase, a purchase not received, or a failing line: that error and nothing stored; otherwise the return is stored with the next PRET number |
| PurchaseReturns.PurchaseReturnsService.Approve | src/purchases/purchase-returns.service.ts:107-128 | unknown id or not pending: the error and nothing changed; otherwise the dispatch run, with the approved record stored only when the run completes |
| PurchaseReturns.PurchaseReturnsService.Reject | src/purchases/purchase-returns.service.ts:130-143 | the record becomes its rejection when it was pending; otherwise the error and nothing changed |
| PurchaseReturns.PurchaseReturnsService.Ship | src/purchases/purchase-returns.service.ts:145-154 | the record becomes its shipment when it was approved; otherwise the error and nothing changed |
| PurchaseReturns.PurchaseReturnsService.Complete | src/purchases/purchase-returns.service.ts:156-165 | the record becomes its completion when it was shipped; otherwise the error and nothing changed |
| Reports.Within | src/reports/reports.service.ts:26-30 | a row is in the period iff its creation instant lies in the inclusive range |
| Reports.KeepMultiplicity | src/reports/reports.service.ts:28-33 | a status or stock filter keeps each passing row exactly as often as it occurs and drops the others, so a count is the number of passing rows |
| Reports.WithinMultiplicity | src/reports/reports.service.ts:26-30 | the period filter keeps each row of the period exactly as often as it occurs and drops the others |
| Reports.PeriodsAdd | src/reports/reports.service.ts:26-37 | splitting a period in two splits its row count and every sum into the two halves' |
| Reports.CountsOfExclusiveTests | src/reports/reports.service.ts:128-138 | counts of mutually exclusive status tests add up to at most the number of rows, and to exactly that number when the tests cover every row |
| Reports.GetSalesReport | src/reports/reports.service.ts:25-49 | the report holds the completed sales of the period, each exactly as often as it is stored; the count is their number; total sales, total discount and total tax are the sums of their totals, discounts and taxes; net sales are total sales minus total discount |
| Reports.SalesReportsAdd | src/reports/reports.service.ts:25-49 | the figures of a period are the sums of the figures of its two halves |
| Reports.GetPurchaseReport | src/reports/reports.service.ts:51-74 | the report holds the purchases of the period whatever their status, each exactly as often as it is stored; the count is their number; total purchases, discount and tax are the sums of those fields; net purchases are totals minus discounts |
| Reports.StatusDoesNotMatter | src/reports/reports.service.ts:52-58 | changing a purchase's status does not change the purchase report |
| Reports.GetStockReport | src/reports/reports.service.ts:76-98 | the active products, the active low-stock ones (stock ≤ minimum) and the active out-of-stock ones (stock = 0), each exactly as often as it is stored; the counts are their numbers, and the stock value is Σ cost × stock |
| Reports.OutOfStockIsLowStock | src/reports/reports.service.ts:83-84 | with non-negative minimums every out-of-stock product is low on stock, so its count is no larger |
| Reports.StockValueNonNegative | src/reports/reports.service.ts:85 | non-negative costs and stock give a non-negative stock value |
| Reports.GetProfitLoss | src/reports/reports.service.ts:100-115 | revenue is net sales, cost of goods is net purchases, gross profit is their difference, and the margin is profit/revenue × 100 when revenue is positive, else 0 |
| Reports.ProfitLossOf | src/reports/reports.service.ts:106-113 | the statement keeps the given revenue and cost of goods, its gross profit is their difference, and its margin is that profit as a percentage of revenue (zero without revenue) |
| Reports.MarginOfCosts | src/reports/reports.service.ts:106-113 | for positive revenue and a margin that is the profit's percentage of it: at most 100 when costs are non-negative, exactly 100 iff costs are zero, negative iff costs exceed revenue |
| Reports.MarginBounds | src/reports/reports.service.ts:104-113 | with positive revenue the margin is at most 100 when costs are non-negative, exactly 100 iff costs are zero, and negative iff costs exceed revenue |
| Reports.GetSaleReturnsSummary | src/reports/reports.service.ts:117-141 | over the returns of the period: their number, the sums of their totals and of their refunds, the number approved or completed, the number pending and the number rejected; the three counts add up to the number of returns |
| Reports.NoRefundBeforeApproval | src/reports/reports.service.ts:127-128 | when no return of the period is approved or completed, the refunds add up to zero |
| Reports.ShippedReturnIsUncounted | src/reports/reports.service.ts:154 | with the approved test as written, a shipped purchase return is counted in none of the three buckets |
| Reports.GetPurchaseReturnsSummary | src/reports/reports.service.ts:143-167 | over the returns of the period: their number, the sums of their totals and of their credits, the number approved, shipped or completed, the number pending and the number rejected; the three counts add up to the number of returns |
| Reports.GetReturnsOverview | src/reports/reports.service.ts:169-179 | both summaries of the period, and the sum of the two return totals |
| Roles.UserRoles | src/auth/guards/roles.guard.ts:21 | a single role is treated as a one-element list, and a list is taken as is |
| Roles.RequiredRoles | src/auth/guards/roles.guard.ts:11-14 | the handler's roles take precedence over the class's |
| Roles.AnyHeld | src/auth/guards/roles.guard.ts:22 | true iff some required role is among the held roles |
| Roles.CanActivate | src/auth/guards/roles.guard.ts:10-23 | no roles metadata grants access; otherwise access iff some required role is held |
| Roles.EmptyListDenies | src/auth/guards/roles.guard.ts:15-22 | an empty but present list of required roles denies everyone |
| Roles.SingleIsOneElementList | src/auth/guards/roles.guard.ts:21 | a single role decides exactly as a one-element list |
| Roles.HandlerOverridesClass | src/auth/guards/roles.guard.ts:11-14 | once the handler has roles, the class's roles play no part |
| Roles.MoreRolesNeverDeny | src/auth/guards/roles.guard.ts:22 | holding one more role, or requiring one more alternative, never turns a grant into a denial |

## Left out

- Controllers, modules, the bootstrap, the seed data, the users, catalog, brand, settings and expense services are not part of this model. They are routing, wiring, fixtures and plain record keeping with no ledger effect.
- Input validation is not modelled as behaviour. Its bounds appear as `requires` where the proofs need them: a return line's quantity is at least 1, and a page is at least 1 with a limit between 1 and 100.
- Numbering race and transactions: two concurrent requests can mint the same number, and entry, lines and balances are not written atomically. The model is sequential.
- Clock and time zones: today's date and creation instants are parameters. The UTC date of the number generators and the local day of the day book are not distinguished.
- Floating point: money is an exact `real`. The JavaScript rounding of sums and the `toFixed` formatting of messages are not modelled.
- Database read-backs: the `findOne` after each save and `findJournalEntry` return the stored record. The model returns the record it stores.
- The `findAll` listings of sales, purchases and returns, and the report listings' `createdAt DESC` / `name ASC` order, are not modelled. The reports are stated over their rows as a set, and their figures do not depend on order.
- Error messages carry the account name or the item id the source interpolates. A product name needing a relation load is replaced by the product id.
- A return line's `productId` is taken from the request as the source does. Nothing checks that it matches the original item's product.
- The item `condition` and the return `reason` are stored as given and not interpreted.
- The ledger service filters on a `date` field that the journal entry entity does not have; the model reads the entry's transaction date.
- Accounts.AccountRegistry.UpdateBalance: `src/ledger/accounting.service.ts:141` calls `updateBalance` on the accounts service, but `src/accounts/accounts.service.ts` defines no such method, so the source as written cannot post a balance. The model supplies the evident meaning, `balance := balance + delta` on that one account, and the posting proofs rest on it.
- Unique indexes: the store refuses a second row with the same account code, product sku or barcode, or entry, invoice, order or return number. The model does not model these indexes. It refuses only what the services check themselves, so an update that would break an index, or two numbers minted concurrently, are not refused.
- Stored journal lines carry no row id in the model, so two identical lines of one entry are equal values. Listings still keep each of them, counted by multiplicity.
- Accounting.AccountingService.GetJournalEntries: states the page count through `PageCount`, whose own contract characterises ceil(total/limit), rather than as a division.
- Accounting.AccountingService.GetAccountStatement: the statement's opening balance is the constant 0 of the source. No replay of earlier entries is modelled.

## Findings

| source | as written | input that shows it | evidently intended | confidence | as-written member | corrected member |
|---|---|---|---|---|---|---|
| src/reports/reports.service.ts:154 | the purchase-returns summary counts a return as approved only when its status is approved or completed, so a shipped return falls into none of the approved, pending and rejected counts | one purchase return in the period with status shipped: returnsCount 1, all three counts 0 | a shipped return has been approved, and it should count as approved, as the sale-returns summary counts every approved-or-later return | medium, not executed | Reports.ShippedReturnIsUncounted | Reports.GetPurchaseReturnsSummary |
| src/ledger/accounting.service.ts:423-434 | the last-transaction query joins the entry with `leftJoin` for its ordering but does not select it, and the line relation is not eager, so `lastTransaction?.journalEntry?.transactionDate` is always undefined | any account with one posted line: lastTransactionDate is absent although the account has a transaction | the transaction date of the account's latest line, as with `leftJoinAndSelect` | high, not executed | Accounting.AccountingService.LastDateLostAsWritten | Accounting.AccountingService.GetAccountBalance |
