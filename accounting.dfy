/** The double-entry journal engine (`AccountingService`): posting a journal
    entry (balance check, account checks, numbering, line rows, and one
    balance delta per line chosen by the polarity table), the pre-built line
    sets for sales, payments and adjustments, the trial balance, the paged
    entry listing, the account statement and the account balance query. */
module Accounting {
  import opened Common
  import opened Accounts
  import opened Numbering
  import opened Ordering

  /** Debits and credits may differ by this much and still post. */
  const Tolerance: Money := 0.01

  /** The balancing account of every adjustment: a fixed placeholder id. */
  const AdjustmentAccountId: Id := "adjustment-account-id"

  datatype EntryType = Debit | Credit

  datatype TransactionType =
    Sale | Purchase | Payment | Receipt | Adjustment | OpeningBalance | Closing

  /** One line of a posting request. */
  datatype LineInput = LineInput(
    accountId: Id, side: EntryType, amount: Money, description: Option<string>)

  datatype JournalRequest = JournalRequest(
    transactionType: TransactionType,
    description: string,
    transactionDate: CalendarDate,
    lines: seq<LineInput>,
    referenceId: Option<Id>,
    referenceType: Option<string>)

  /** A stored journal entry header. */
  datatype JournalEntry = JournalEntry(
    id: Id,
    entryNumber: string,
    transactionType: TransactionType,
    description: string,
    transactionDate: CalendarDate,
    totalAmount: Money,
    referenceId: Option<Id>,
    referenceType: Option<string>,
    createdBy: Id,
    createdAt: int)

  /** A stored journal entry line. */
  datatype JournalEntryLine = JournalEntryLine(
    journalEntryId: Id, accountId: Id, side: EntryType, amount: Money, description: Option<string>)

  // ---------------------------------------------------------------------
  // Totals and the polarity table

  function TotalDebits(lines: seq<LineInput>): Money {
    if |lines| == 0 then 0.0
    else
      var l := lines[|lines| - 1];
      TotalDebits(lines[..|lines| - 1]) + (if l.side == Debit then l.amount else 0.0)
  }

  function TotalCredits(lines: seq<LineInput>): Money {
    if |lines| == 0 then 0.0
    else
      var l := lines[|lines| - 1];
      TotalCredits(lines[..|lines| - 1]) + (if l.side == Credit then l.amount else 0.0)
  }

  /** The balance change `updateAccountBalance` applies for one line. */
  function Polarity(kind: AccountType, side: EntryType, amount: Money): Money {
    match side
    case Debit =>
      (match kind
       case Asset | Expense => amount
       case Liability | Equity | Income => -amount)
    case Credit =>
      (match kind
       case Asset | Expense => -amount
       case Liability | Equity | Income => amount)
  }

  /** A debit raises Asset and Expense balances and lowers the other three;
      a credit is its exact negation; either way the line moves the
      accounting identity by +amount (debit) or -amount (credit). */
  lemma PolarityTable(kind: AccountType, side: EntryType, amount: Money)
    ensures Polarity(kind, Debit, amount) == if DebitNormal(kind) then amount else -amount
    ensures Polarity(kind, Credit, amount) == -Polarity(kind, Debit, amount)
    ensures Signed(kind, Polarity(kind, side, amount)) == if side == Debit then amount else -amount
  {
  }

  // ---------------------------------------------------------------------
  // Admission: the checks that run before anything is written

  /** The line's account exists and is active. */
  predicate Postable(accounts: seq<Account>, id: Id) {
    match IndexOf(accounts, id)
    case Some(k) => accounts[k].isActive
    case None => false
  }

  /** `findOne` then the `isActive` test, for one line. */
  function LineCheck(accounts: seq<Account>, line: LineInput): (r: Option<Error>)
    ensures r.None? <==> Postable(accounts, line.accountId)
    ensures r.Some? ==> r.value == NotFound("Account") || r.value.InactiveAccount?
  {
    match Lookup(accounts, line.accountId)
    case Err(e) => Some(e)
    case Ok(a) => if a.isActive then None else Some(InactiveAccount(a.name))
  }

  /** The error of the first line, in request order, whose account is
      missing or inactive. */
  function AccountCheck(accounts: seq<Account>, lines: seq<LineInput>): (r: Option<Error>)
    ensures r.Some? ==> r.value == NotFound("Account") || r.value.InactiveAccount?
    decreases |lines|
  {
    if |lines| == 0 then None
    else match LineCheck(accounts, lines[0])
      case Some(e) => Some(e)
      case None => AccountCheck(accounts, lines[1..])
  }

  /** The account check passes iff every line's account is postable. */
  lemma {:induction false} AllAccountsPostable(accounts: seq<Account>, lines: seq<LineInput>)
    ensures AccountCheck(accounts, lines).None?
        <==> forall k :: 0 <= k < |lines| ==> Postable(accounts, lines[k].accountId)
    decreases |lines|
  {
    if |lines| > 0 {
      var rest := lines[1..];
      assert forall k :: 1 <= k < |lines| ==> lines[k] == rest[k - 1];
      if LineCheck(accounts, lines[0]).None? {
        AllAccountsPostable(accounts, rest);
      }
    }
  }

  /** A refusal is the error of the first line whose account is missing or
      inactive, every earlier line's account being postable. */
  lemma {:induction false} FirstUnpostableLine(accounts: seq<Account>, lines: seq<LineInput>)
    requires AccountCheck(accounts, lines).Some?
    ensures exists k :: 0 <= k < |lines| && AccountCheck(accounts, lines) == LineCheck(accounts, lines[k])
                        && forall j :: 0 <= j < k ==> Postable(accounts, lines[j].accountId)
    decreases |lines|
  {
    var rest := lines[1..];
    if LineCheck(accounts, lines[0]).Some? {
      assert AccountCheck(accounts, lines) == LineCheck(accounts, lines[0]);
    } else {
      FirstUnpostableLine(accounts, rest);
      var k :| 0 <= k < |rest| && AccountCheck(accounts, rest) == LineCheck(accounts, rest[k])
               && forall j :: 0 <= j < k ==> Postable(accounts, rest[j].accountId);
      assert lines[k + 1] == rest[k];
      forall j | 0 <= j < k + 1
        ensures Postable(accounts, lines[j].accountId)
      {
        if j > 0 {
          assert lines[j] == rest[j - 1];
        }
      }
      assert AccountCheck(accounts, lines) == LineCheck(accounts, lines[k + 1]);
    }
  }

  /** Why `createJournalEntry` refuses a request, if it does: the balance
      test comes first and needs no account; then the accounts, in order. */
  function Admission(accounts: seq<Account>, lines: seq<LineInput>): (r: Option<Error>)
    ensures Abs(TotalDebits(lines) - TotalCredits(lines)) > Tolerance
            ==> r == Some(Unbalanced(TotalDebits(lines), TotalCredits(lines)))
    ensures r.None? <==> Abs(TotalDebits(lines) - TotalCredits(lines)) <= Tolerance
                         && forall k :: 0 <= k < |lines| ==> Postable(accounts, lines[k].accountId)
    ensures r.Some? && Abs(TotalDebits(lines) - TotalCredits(lines)) <= Tolerance
            ==> r.value == NotFound("Account") || r.value.InactiveAccount?
  {
    var debits, credits := TotalDebits(lines), TotalCredits(lines);
    if Abs(debits - credits) > Tolerance then Some(Unbalanced(debits, credits))
    else
      AllAccountsPostable(accounts, lines);
      AccountCheck(accounts, lines)
  }

  // ---------------------------------------------------------------------
  // Posting

  /** The two records agree on every field but the balance. */
  predicate SameButBalance(a: Account, b: Account) {
    a.id == b.id && a.code == b.code && a.name == b.name && a.kind == b.kind
    && a.description == b.description && a.isActive == b.isActive
  }

  /** `after` is `before` with at most the balances changed. */
  predicate BalancesOnly(before: seq<Account>, after: seq<Account>) {
    |after| == |before| && forall k :: 0 <= k < |after| ==> SameButBalance(before[k], after[k])
  }

  /** Apply one line: the polarity delta of the line's account type, added
      to that account's balance through the registry primitive. */
  function PostLine(accounts: seq<Account>, line: LineInput): (r: seq<Account>)
    ensures BalancesOnly(accounts, r)
  {
    match IndexOf(accounts, line.accountId)
    case None => accounts
    case Some(k) => AddToBalance(accounts, k, Polarity(accounts[k].kind, line.side, line.amount))
  }

  /** Apply the lines in order; only balances change. */
  function PostLines(accounts: seq<Account>, lines: seq<LineInput>): (r: seq<Account>)
    ensures BalancesOnly(accounts, r)
  {
    if |lines| == 0 then accounts
    else PostLine(PostLines(accounts, lines[..|lines| - 1]), lines[|lines| - 1])
  }

  /** The total polarity delta the lines bring to account `id` of type `kind`. */
  function AccountDelta(kind: AccountType, id: Id, lines: seq<LineInput>): (r: Money)
    ensures (forall j :: 0 <= j < |lines| ==> lines[j].accountId != id) ==> r == 0.0
  {
    if |lines| == 0 then 0.0
    else
      var l := lines[|lines| - 1];
      AccountDelta(kind, id, lines[..|lines| - 1]) + (if l.accountId == id then Polarity(kind, l.side, l.amount) else 0.0)
  }

  lemma SameIdsSameIndex(a: seq<Account>, b: seq<Account>, id: Id)
    requires BalancesOnly(a, b)
    ensures IndexOf(a, id) == IndexOf(b, id)
    ensures Postable(a, id) == Postable(b, id)
  {
    var ia, ib := IndexOf(a, id), IndexOf(b, id);
    if ia.Some? {
      assert SameButBalance(a[ia.value], b[ia.value]);
    }
    if ib.Some? {
      assert SameButBalance(a[ib.value], b[ib.value]);
    }
  }

  /** One line moves the identity by +amount for a debit, -amount for a
      credit; the active-only identity too when the account is active. */
  lemma PostLineShiftsIdentity(accounts: seq<Account>, l: LineInput)
    requires IndexOf(accounts, l.accountId).Some?
    ensures Identity(PostLine(accounts, l))
         == Identity(accounts) + (if l.side == Debit then l.amount else -l.amount)
    ensures Postable(accounts, l.accountId)
         ==> ActiveIdentity(PostLine(accounts, l))
             == ActiveIdentity(accounts) + (if l.side == Debit then l.amount else -l.amount)
  {
    var k := IndexOf(accounts, l.accountId).value;
    AddToBalanceIdentity(accounts, k, Polarity(accounts[k].kind, l.side, l.amount));
    PolarityTable(accounts[k].kind, l.side, l.amount);
  }

  /** Posting an entry moves Assets + Expenses - (Liabilities + Equity +
      Income) by exactly total debits minus total credits. */
  lemma {:induction false} PostingShiftsIdentity(accounts: seq<Account>, lines: seq<LineInput>)
    requires forall k :: 0 <= k < |lines| ==> IndexOf(accounts, lines[k].accountId).Some?
    ensures Identity(PostLines(accounts, lines))
         == Identity(accounts) + TotalDebits(lines) - TotalCredits(lines)
    decreases |lines|
  {
    if |lines| > 0 {
      var n := |lines| - 1;
      var l, prefix := lines[n], lines[..n];
      assert forall k :: 0 <= k < n ==> prefix[k] == lines[k];
      PostingShiftsIdentity(accounts, prefix);
      var prev := PostLines(accounts, prefix);
      assert PostLines(accounts, lines) == PostLine(prev, l);
      SameIdsSameIndex(accounts, prev, l.accountId);
      PostLineShiftsIdentity(prev, l);
    }
  }

  /** When every line's account is active, posting moves the same sum over
      the active accounts (what the trial balance adds up) by total debits
      minus total credits too. */
  lemma {:induction false} PostingShiftsActiveIdentity(accounts: seq<Account>, lines: seq<LineInput>)
    requires forall k :: 0 <= k < |lines| ==> Postable(accounts, lines[k].accountId)
    ensures ActiveIdentity(PostLines(accounts, lines))
         == ActiveIdentity(accounts) + TotalDebits(lines) - TotalCredits(lines)
    decreases |lines|
  {
    if |lines| > 0 {
      var n := |lines| - 1;
      var l, prefix := lines[n], lines[..n];
      assert forall k :: 0 <= k < n ==> prefix[k] == lines[k];
      PostingShiftsActiveIdentity(accounts, prefix);
      var prev := PostLines(accounts, prefix);
      assert PostLines(accounts, lines) == PostLine(prev, l);
      SameIdsSameIndex(accounts, prev, l.accountId);
      PostLineShiftsIdentity(prev, l);
    }
  }

  /** Replaying the lines reproduces each balance: an account ends at its
      old balance plus the polarity deltas of exactly the lines naming it
      (so an account no line names is unchanged). */
  lemma {:induction false} PostingPerAccount(accounts: seq<Account>, lines: seq<LineInput>, k: nat)
    requires UniqueIds(accounts) && k < |accounts|
    ensures PostLines(accounts, lines)[k].balance
         == accounts[k].balance + AccountDelta(accounts[k].kind, accounts[k].id, lines)
    decreases |lines|
  {
    if |lines| > 0 {
      var n := |lines| - 1;
      var l := lines[n];
      PostingPerAccount(accounts, lines[..n], k);
      var prev := PostLines(accounts, lines[..n]);
      SameIdsSameIndex(accounts, prev, l.accountId);
    }
  }

  // ---------------------------------------------------------------------
  // Pre-built line sets

  /** `recordSaleTransaction`'s lines: debit cash by the amount paid,
      credit revenue by the total, and credit cash by the change if any. */
  function SaleLines(cashAccountId: Id, salesAccountId: Id, totalAmount: Money, paidAmount: Money): seq<LineInput> {
    var base := [LineInput(cashAccountId, Debit, paidAmount, Some("Cash received from sale")),
                 LineInput(salesAccountId, Credit, totalAmount, Some("Sales revenue"))];
    if paidAmount > totalAmount then
      base + [LineInput(cashAccountId, Credit, paidAmount - totalAmount, Some("Change given to customer"))]
    else base
  }

  /** The totals and an account's delta grow by the last line's share. */
  lemma LinesSnoc(ls: seq<LineInput>, l: LineInput, kind: AccountType, id: Id)
    ensures TotalDebits(ls + [l]) == TotalDebits(ls) + (if l.side == Debit then l.amount else 0.0)
    ensures TotalCredits(ls + [l]) == TotalCredits(ls) + (if l.side == Credit then l.amount else 0.0)
    ensures AccountDelta(kind, id, ls + [l])
         == AccountDelta(kind, id, ls) + (if l.accountId == id then Polarity(kind, l.side, l.amount) else 0.0)
  {
    assert (ls + [l])[..|ls|] == ls;
  }

  /** The totals and an account's delta over a two-line set. */
  lemma LinesPair(l0: LineInput, l1: LineInput, kind: AccountType, id: Id)
    ensures TotalDebits([l0, l1])
         == (if l0.side == Debit then l0.amount else 0.0) + (if l1.side == Debit then l1.amount else 0.0)
    ensures TotalCredits([l0, l1])
         == (if l0.side == Credit then l0.amount else 0.0) + (if l1.side == Credit then l1.amount else 0.0)
    ensures AccountDelta(kind, id, [l0, l1])
         == (if l0.accountId == id then Polarity(kind, l0.side, l0.amount) else 0.0)
          + (if l1.accountId == id then Polarity(kind, l1.side, l1.amount) else 0.0)
  {
    LinesSnoc([], l0, kind, id);
    assert [] + [l0] == [l0];
    LinesSnoc([l0], l1, kind, id);
    assert [l0] + [l1] == [l0, l1];
  }

  /** A sale posting balances when the customer paid at least the total,
      and is short by total - paid otherwise. */
  lemma SaleLinesBalance(cash: Id, sales: Id, total: Money, paid: Money)
    ensures TotalDebits(SaleLines(cash, sales, total, paid)) == paid
    ensures TotalCredits(SaleLines(cash, sales, total, paid)) == if paid > total then paid else total
    ensures TotalDebits(SaleLines(cash, sales, total, paid)) - TotalCredits(SaleLines(cash, sales, total, paid))
         == if paid > total then 0.0 else paid - total
  {
    var ls := SaleLines(cash, sales, total, paid);
    LinesPair(ls[0], ls[1], Asset, cash);
    if paid > total {
      LinesSnoc([ls[0], ls[1]], ls[2], Asset, cash);
      assert ls == [ls[0], ls[1]] + [ls[2]];
    } else {
      assert ls == [ls[0], ls[1]];
    }
  }

  /** When cash and revenue are different accounts and the customer
      overpays, the cash account nets exactly the sale total: the paid
      amount in, the change out; revenue grows by the total. */
  lemma SaleCashNetsTotal(cash: Id, sales: Id, total: Money, paid: Money)
    requires cash != sales && paid > total
    ensures AccountDelta(Asset, cash, SaleLines(cash, sales, total, paid)) == total
    ensures AccountDelta(Income, sales, SaleLines(cash, sales, total, paid)) == total
  {
    var ls := SaleLines(cash, sales, total, paid);
    assert ls == [ls[0], ls[1]] + [ls[2]];
    LinesPair(ls[0], ls[1], Asset, cash);
    LinesSnoc([ls[0], ls[1]], ls[2], Asset, cash);
    LinesPair(ls[0], ls[1], Income, sales);
    LinesSnoc([ls[0], ls[1]], ls[2], Income, sales);
  }

  /** `recordPayment`'s lines: debit the receiving account, credit the
      paying account, by the same amount. */
  function PaymentLines(fromAccountId: Id, toAccountId: Id, amount: Money, description: string): seq<LineInput> {
    [LineInput(toAccountId, Debit, amount, Some("Payment received: " + description)),
     LineInput(fromAccountId, Credit, amount, Some("Payment made: " + description))]
  }

  function Flip(side: EntryType): EntryType {
    if side == Debit then Credit else Debit
  }

  /** `recordAdjustment`'s lines: the named account on the requested side,
      and the fixed adjustment account on the other side, same amount. */
  function AdjustmentLines(accountId: Id, amount: Money, side: EntryType, description: string): seq<LineInput> {
    [LineInput(accountId, side, amount, Some(description)),
     LineInput(AdjustmentAccountId, Flip(side), amount, Some("Balancing entry for: " + description))]
  }

  /** Both two-line sets put the same amount on opposite sides, so they
      always pass the balance check. */
  lemma TwoLegSetsBalance(from: Id, to: Id, account: Id, amount: Money, side: EntryType, description: string)
    ensures var p := PaymentLines(from, to, amount, description);
            |p| == 2 && p[0].side == Debit && p[1].side == Credit
            && TotalDebits(p) == amount && TotalCredits(p) == amount
    ensures var a := AdjustmentLines(account, amount, side, description);
            |a| == 2 && a[0].side != a[1].side && a[1].accountId == AdjustmentAccountId
            && TotalDebits(a) == amount && TotalCredits(a) == amount
  {
    var p := PaymentLines(from, to, amount, description);
    LinesPair(p[0], p[1], Asset, from);
    var a := AdjustmentLines(account, amount, side, description);
    LinesPair(a[0], a[1], Asset, from);
  }

  /** With no account stored under the placeholder id, an adjustment to a
      postable account is always refused with NotFound. */
  lemma AdjustmentNeedsPlaceholderAccount(accounts: seq<Account>, account: Id, amount: Money, side: EntryType, description: string)
    requires Postable(accounts, account)
    requires forall k :: 0 <= k < |accounts| ==> accounts[k].id != AdjustmentAccountId
    ensures Admission(accounts, AdjustmentLines(account, amount, side, description)) == Some(NotFound("Account"))
  {
    var a := AdjustmentLines(account, amount, side, description);
    TwoLegSetsBalance(account, account, account, amount, side, description);
    assert Abs(TotalDebits(a) - TotalCredits(a)) == 0.0;
    assert Admission(accounts, a) == AccountCheck(accounts, a);
    assert LineCheck(accounts, a[0]) == None;
    assert AccountCheck(accounts, a) == AccountCheck(accounts, a[1..]);
    assert IndexOf(accounts, AdjustmentAccountId) == None;
    assert LineCheck(accounts, a[1]) == Some(NotFound("Account"));
    assert a[1..] == [a[1]] && a[1..][0] == a[1];
    assert AccountCheck(accounts, a[1..]) == LineCheck(accounts, a[1]);
  }

  /** Debiting 100 against a 90 credit is refused as unbalanced, with
      both totals reported, before any account is looked at. */
  lemma UnbalancedRefusedFirst(accounts: seq<Account>, a: Id, b: Id)
    ensures Admission(accounts, [LineInput(a, Debit, 100.0, None), LineInput(b, Credit, 90.0, None)])
         == Some(Unbalanced(100.0, 90.0))
  {
    LinesPair(LineInput(a, Debit, 100.0, None), LineInput(b, Credit, 90.0, None), Asset, a);
  }

  /** The tolerance is inclusive: a gap of exactly 0.01 posts, 0.02 does not. */
  lemma ToleranceBoundary(accounts: seq<Account>, a: Id, b: Id)
    requires Postable(accounts, a) && Postable(accounts, b)
    ensures Admission(accounts, [LineInput(a, Debit, 100.01, None), LineInput(b, Credit, 100.0, None)]).None?
    ensures Admission(accounts, [LineInput(a, Debit, 100.02, None), LineInput(b, Credit, 100.0, None)])
         == Some(Unbalanced(100.02, 100.0))
  {
    LinesPair(LineInput(a, Debit, 100.01, None), LineInput(b, Credit, 100.0, None), Asset, a);
    LinesPair(LineInput(a, Debit, 100.02, None), LineInput(b, Credit, 100.0, None), Asset, a);
  }

  // ---------------------------------------------------------------------
  // Trial balance

  datatype TrialRow = TrialRow(account: Account, debitBalance: Money, creditBalance: Money)

  datatype TrialBalance = TrialBalance(
    accounts: seq<TrialRow>, totalDebits: Money, totalCredits: Money, isBalanced: bool)

  /** One account's trial-balance row: its balance lands in exactly one
      column, as a non-negative figure, on the side its sign and type say. */
  function Columns(a: Account): (row: TrialRow)
    ensures row.account == a
    ensures row.debitBalance >= 0.0 && row.creditBalance >= 0.0
    ensures row.debitBalance == 0.0 || row.creditBalance == 0.0
    ensures row.debitBalance - row.creditBalance == Signed(a.kind, a.balance)
  {
    match a.kind
    case Asset | Expense =>
      if a.balance >= 0.0 then TrialRow(a, a.balance, 0.0) else TrialRow(a, 0.0, Abs(a.balance))
    case Liability | Equity | Income =>
      if a.balance >= 0.0 then TrialRow(a, 0.0, a.balance) else TrialRow(a, Abs(a.balance), 0.0)
  }

  function TrialRows(accounts: seq<Account>): (r: seq<TrialRow>)
    ensures |r| == |accounts|
  {
    if |accounts| == 0 then []
    else TrialRows(accounts[..|accounts| - 1]) + [Columns(accounts[|accounts| - 1])]
  }

  function DebitColumnTotal(accounts: seq<Account>): (r: Money)
    ensures r >= 0.0
  {
    if |accounts| == 0 then 0.0
    else DebitColumnTotal(accounts[..|accounts| - 1]) + Columns(accounts[|accounts| - 1]).debitBalance
  }

  function CreditColumnTotal(accounts: seq<Account>): (r: Money)
    ensures r >= 0.0
  {
    if |accounts| == 0 then 0.0
    else CreditColumnTotal(accounts[..|accounts| - 1]) + Columns(accounts[|accounts| - 1]).creditBalance
  }

  /** The two columns differ by exactly the accounting identity. */
  lemma {:induction false} ColumnTotalsDifference(accounts: seq<Account>)
    ensures DebitColumnTotal(accounts) - CreditColumnTotal(accounts) == Identity(accounts)
    decreases |accounts|
  {
    if |accounts| > 0 {
      ColumnTotalsDifference(accounts[..|accounts| - 1]);
    }
  }

  /** Debit column total minus credit column total of the trial balance. */
  function TrialDifference(accounts: seq<Account>): Money {
    DebitColumnTotal(ActiveAccounts(accounts)) - CreditColumnTotal(ActiveAccounts(accounts))
  }

  /** The trial balance's difference is the accounting identity over the
      active accounts. */
  lemma TrialDifferenceIsActiveIdentity(accounts: seq<Account>)
    ensures TrialDifference(accounts) == ActiveIdentity(accounts)
  {
    ColumnTotalsDifference(ActiveAccounts(accounts));
    ActiveIdentityIsIdentityOfActive(accounts);
  }

  /** Posting lines whose accounts are all active moves the trial
      balance's difference by total debits minus total credits. */
  lemma {:induction false} PostingMovesTrialBalance(accounts: seq<Account>, lines: seq<LineInput>)
    requires forall k :: 0 <= k < |lines| ==> Postable(accounts, lines[k].accountId)
    ensures TrialDifference(PostLines(accounts, lines))
         == TrialDifference(accounts) + TotalDebits(lines) - TotalCredits(lines)
  {
    PostingShiftsActiveIdentity(accounts, lines);
    TrialDifferenceIsActiveIdentity(PostLines(accounts, lines));
    TrialDifferenceIsActiveIdentity(accounts);
  }

  lemma ShiftWithinTolerance(before: Money, after: Money, debits: Money, credits: Money)
    requires after == before + debits - credits
    requires Abs(debits - credits) <= Tolerance
    ensures Abs(after - before) <= Tolerance
  {
  }

  /** An admitted entry balances to within 0.01. */
  lemma AdmittedEntryIsBalanced(accounts: seq<Account>, lines: seq<LineInput>)
    requires Admission(accounts, lines).None?
    ensures Abs(TotalDebits(lines) - TotalCredits(lines)) <= Tolerance
  {
  }

  /** An admitted entry moves the trial balance's difference by exactly
      total debits minus total credits. */
  lemma {:induction false} AdmittedEntryShiftsTrialBalance(accounts: seq<Account>, lines: seq<LineInput>)
    requires Admission(accounts, lines).None?
    ensures TrialDifference(PostLines(accounts, lines))
         == TrialDifference(accounts) + TotalDebits(lines) - TotalCredits(lines)
  {
    PostingMovesTrialBalance(accounts, lines);
  }

  lemma {:induction false} TrialShiftWithinTolerance(accounts: seq<Account>, lines: seq<LineInput>)
    requires TrialDifference(PostLines(accounts, lines))
          == TrialDifference(accounts) + TotalDebits(lines) - TotalCredits(lines)
    requires Abs(TotalDebits(lines) - TotalCredits(lines)) <= Tolerance
    ensures Abs(TrialDifference(PostLines(accounts, lines)) - TrialDifference(accounts)) <= Tolerance
  {
    ShiftWithinTolerance(TrialDifference(accounts), TrialDifference(PostLines(accounts, lines)),
                         TotalDebits(lines), TotalCredits(lines));
  }

  /** An admitted entry moves the trial balance's difference by total
      debits minus total credits, hence by at most 0.01. */
  lemma {:induction false} AdmittedEntryMovesTrialBalanceByAtMostTolerance(accounts: seq<Account>, lines: seq<LineInput>)
    requires Admission(accounts, lines).None?
    ensures TrialDifference(PostLines(accounts, lines))
         == TrialDifference(accounts) + TotalDebits(lines) - TotalCredits(lines)
    ensures Abs(TrialDifference(PostLines(accounts, lines)) - TrialDifference(accounts)) <= Tolerance
  {
    AdmittedEntryShiftsTrialBalance(accounts, lines);
    AdmittedEntryIsBalanced(accounts, lines);
    TrialShiftWithinTolerance(accounts, lines);
  }

  // ---------------------------------------------------------------------
  // Listing, statement and balance queries

  /** The optional filters of the entry listing; each applies on its own. */
  datatype EntryQuery = EntryQuery(
    transactionType: Option<TransactionType>,
    startDate: Option<CalendarDate>,
    endDate: Option<CalendarDate>,
    accountId: Option<Id>)

  datatype EntryPage = EntryPage(entries: seq<JournalEntry>, total: nat, page: nat, totalPages: nat)

  predicate HasLineFor(lines: seq<JournalEntryLine>, entryId: Id, accountId: Id) {
    exists k :: 0 <= k < |lines| && lines[k].journalEntryId == entryId && lines[k].accountId == accountId
  }

  predicate MatchesQuery(e: JournalEntry, lines: seq<JournalEntryLine>, q: EntryQuery) {
    && (q.transactionType.Some? ==> e.transactionType == q.transactionType.value)
    && (q.startDate.Some? ==> DayNumber(q.startDate.value) <= DayNumber(e.transactionDate))
    && (q.endDate.Some? ==> DayNumber(e.transactionDate) <= DayNumber(q.endDate.value))
    && (q.accountId.Some? ==> HasLineFor(lines, e.id, q.accountId.value))
  }

  function MatchingEntries(entries: seq<JournalEntry>, lines: seq<JournalEntryLine>, q: EntryQuery): (r: seq<JournalEntry>)
    ensures forall e :: e in r <==> e in entries && MatchesQuery(e, lines, q)
  {
    if |entries| == 0 then []
    else
      var e := entries[|entries| - 1];
      var rest := MatchingEntries(entries[..|entries| - 1], lines, q);
      assert entries == entries[..|entries| - 1] + [e];
      if MatchesQuery(e, lines, q) then rest + [e] else rest
  }

  /** The filter keeps every matching entry as often as it is stored and
      drops the others. */
  lemma {:induction false} MatchingEntriesMultiplicity(entries: seq<JournalEntry>, lines: seq<JournalEntryLine>, q: EntryQuery)
    ensures forall e :: multiset(MatchingEntries(entries, lines, q))[e]
              == if MatchesQuery(e, lines, q) then multiset(entries)[e] else 0
    decreases |entries|
  {
    if |entries| > 0 {
      var e := entries[|entries| - 1];
      assert entries == entries[..|entries| - 1] + [e];
      MatchingEntriesMultiplicity(entries[..|entries| - 1], lines, q);
    }
  }

  /** Transaction date descending, then creation time descending. */
  function NewestFirst(e: JournalEntry): Key {
    Key(-DayNumber(e.transactionDate), -e.createdAt)
  }

  /** The rows a page skips: `(page - 1) * limit`. */
  function PageOffset(page: nat, limit: nat): nat
    requires page >= 1
  {
    (page - 1) * limit
  }

  /** `Math.ceil(total / limit)`. */
  function PageCount(total: nat, limit: nat): (r: nat)
    requires limit >= 1
    ensures r * limit >= total && (r == 0 || (r - 1) * limit < total)
  {
    var q := (total + limit - 1) / limit;
    assert q * limit + (total + limit - 1) % limit == total + limit - 1;
    q
  }

  /** A statement line: the stored line joined with its entry. */
  datatype LedgerRow = LedgerRow(line: JournalEntryLine, entry: JournalEntry)

  function EntryIndex(entries: seq<JournalEntry>, id: Id): (r: Option<nat>)
    ensures r.Some? ==> r.value < |entries| && entries[r.value].id == id
    ensures r.None? ==> forall k :: 0 <= k < |entries| ==> entries[k].id != id
  {
    FirstIndex(entries, (e: JournalEntry) => e.id == id)
  }

  /** The entry a line belongs to, if it is stored. */
  function EntryOf(entries: seq<JournalEntry>, id: Id): Option<JournalEntry> {
    match EntryIndex(entries, id)
    case None => None
    case Some(k) => Some(entries[k])
  }

  /** Lines joined with their entries (a line always has one here: both
      are written by the same posting). */
  function Joined(entries: seq<JournalEntry>, lines: seq<JournalEntryLine>): (r: seq<LedgerRow>)
    ensures forall row :: row in r ==> row.line in lines && row.entry in entries && row.entry.id == row.line.journalEntryId
  {
    if |lines| == 0 then []
    else
      var l := lines[|lines| - 1];
      var rest := Joined(entries, lines[..|lines| - 1]);
      match EntryIndex(entries, l.journalEntryId)
      case None => rest
      case Some(k) => rest + [LedgerRow(l, entries[k])]
  }

  /** Every stored line appears once per copy, joined with its own entry. */
  lemma {:induction false} JoinedMultiplicity(entries: seq<JournalEntry>, lines: seq<JournalEntryLine>)
    ensures forall row :: multiset(Joined(entries, lines))[row]
              == if EntryOf(entries, row.line.journalEntryId) == Some(row.entry) then multiset(lines)[row.line] else 0
    decreases |lines|
  {
    if |lines| > 0 {
      var l := lines[|lines| - 1];
      assert lines == lines[..|lines| - 1] + [l];
      JoinedMultiplicity(entries, lines[..|lines| - 1]);
    }
  }

  /** Transaction date ascending, then creation time ascending. */
  function OldestFirst(row: LedgerRow): Key {
    Key(DayNumber(row.entry.transactionDate), row.entry.createdAt)
  }

  /** Each bound of the statement applies on its own when given. */
  predicate WithinBounds(d: CalendarDate, startDate: Option<CalendarDate>, endDate: Option<CalendarDate>) {
    && (startDate.Some? ==> DayNumber(startDate.value) <= DayNumber(d))
    && (endDate.Some? ==> DayNumber(d) <= DayNumber(endDate.value))
  }

  function StatementRows(rows: seq<LedgerRow>, accountId: Id, startDate: Option<CalendarDate>, endDate: Option<CalendarDate>): (r: seq<LedgerRow>)
    ensures forall row :: row in r <==> row in rows && row.line.accountId == accountId
                                        && WithinBounds(row.entry.transactionDate, startDate, endDate)
  {
    if |rows| == 0 then []
    else
      var row := rows[|rows| - 1];
      var rest := StatementRows(rows[..|rows| - 1], accountId, startDate, endDate);
      assert rows == rows[..|rows| - 1] + [row];
      if row.line.accountId == accountId && WithinBounds(row.entry.transactionDate, startDate, endDate)
      then rest + [row] else rest
  }

  /** The statement filter keeps each of the account's rows within the
      bounds as often as it occurs and drops the others. */
  lemma {:induction false} StatementRowsMultiplicity(rows: seq<LedgerRow>, accountId: Id,
                                                     startDate: Option<CalendarDate>, endDate: Option<CalendarDate>)
    ensures forall row :: multiset(StatementRows(rows, accountId, startDate, endDate))[row]
              == if row.line.accountId == accountId && WithinBounds(row.entry.transactionDate, startDate, endDate)
                 then multiset(rows)[row] else 0
    decreases |rows|
  {
    if |rows| > 0 {
      var row := rows[|rows| - 1];
      assert rows == rows[..|rows| - 1] + [row];
      StatementRowsMultiplicity(rows[..|rows| - 1], accountId, startDate, endDate);
    }
  }

  datatype Statement = Statement(
    account: Account, transactions: seq<LedgerRow>, openingBalance: Money, closingBalance: Money)

  datatype AccountBalance = AccountBalance(
    account: Account, balance: Money, lastTransactionDate: Option<CalendarDate>)

  /** Line rows newest first, for the last-transaction lookup. */
  function NewestRowFirst(row: LedgerRow): Key {
    Key(-DayNumber(row.entry.transactionDate), -row.entry.createdAt)
  }

  // ---------------------------------------------------------------------
  // The service

  function EntryCreatedAt(e: JournalEntry): int {
    e.createdAt
  }

  /** The number of the entry the generator reads (the newest one). */
  function NewestEntryNumber(entries: seq<JournalEntry>): Option<string> {
    match NewestIndex(entries, EntryCreatedAt)
    case None => None
    case Some(k) => Some(entries[k].entryNumber)
  }

  /** The stored rows of a request's lines, in request order. */
  function LineRows(entryId: Id, lines: seq<LineInput>): (r: seq<JournalEntryLine>)
    ensures |r| == |lines|
  {
    if |lines| == 0 then []
    else
      var l := lines[|lines| - 1];
      LineRows(entryId, lines[..|lines| - 1]) + [JournalEntryLine(entryId, l.accountId, l.side, l.amount, l.description)]
  }

  lemma AppendAssociates<T>(a: seq<T>, b: seq<T>, x: T)
    ensures (a + b) + [x] == a + (b + [x])
  {
  }

  /** One more line posted and saved: the prefix grows by that line. */
  lemma PostNextLine(start: seq<Account>, ls: seq<LineInput>, i: nat, entryId: Id)
    requires i < |ls|
    ensures PostLines(start, ls[..i + 1]) == PostLine(PostLines(start, ls[..i]), ls[i])
    ensures LineRows(entryId, ls[..i + 1]) == LineRows(entryId, ls[..i])
          + [JournalEntryLine(entryId, ls[i].accountId, ls[i].side, ls[i].amount, ls[i].description)]
  {
    assert ls[..i + 1][..i] == ls[..i];
  }

  /** The header `createJournalEntry` saves: totalAmount is the debit total. */
  function NewEntry(id: Id, number: string, request: JournalRequest, createdBy: Id, now: int): JournalEntry {
    JournalEntry(id, number, request.transactionType, request.description, request.transactionDate,
                 TotalDebits(request.lines), request.referenceId, request.referenceType, createdBy, now)
  }

  class AccountingService {
    const registry: AccountRegistry
    var entries: seq<JournalEntry>
    var lines: seq<JournalEntryLine>

    ghost predicate Valid()
      reads this, registry
    {
      registry.Valid()
    }

    constructor (registry: AccountRegistry)
      requires registry.Valid()
      ensures Valid() && this.registry == registry && entries == [] && lines == []
    {
      this.registry := registry;
      entries := [];
      lines := [];
    }

    /** The outcome of one posting: refused with the admission error and
        nothing written, or one new header, its line rows, and the balances
        moved line by line. */
    twostate predicate Journalled(request: JournalRequest, createdBy: Id, entryId: Id,
                                  today: CalendarDate, now: int, new r: Result<JournalEntry>)
      reads this, registry
    {
      var refusal := Admission(old(registry.accounts), request.lines);
      if refusal.Some? then
        && r == Err(refusal.value)
        && registry.accounts == old(registry.accounts)
        && entries == old(entries) && lines == old(lines)
      else
        && r == Ok(NewEntry(entryId, GenerateNumber(JournalPrefix, today, NewestEntryNumber(old(entries))),
                            request, createdBy, now))
        && entries == old(entries) + [r.value]
        && lines == old(lines) + LineRows(entryId, request.lines)
        && registry.accounts == PostLines(old(registry.accounts), request.lines)
    }

    /** The account loop of `createJournalEntry`: each line's account is
        looked up in request order and the first missing or inactive one
        stops the entry. */
    method CheckAccounts(ls: seq<LineInput>) returns (r: Option<Error>)
      ensures r == AccountCheck(registry.accounts, ls)
    {
      var i := 0;
      while i < |ls|
        invariant 0 <= i <= |ls|
        invariant AccountCheck(registry.accounts, ls) == AccountCheck(registry.accounts, ls[i..])
      {
        assert ls[i..][1..] == ls[i + 1..];
        var found := registry.FindOne(ls[i].accountId);
        if found.Err? {
          return Some(found.error);
        }
        if !found.value.isActive {
          return Some(InactiveAccount(found.value.name));
        }
        i := i + 1;
      }
      return None;
    }

    /** The body of the posting loop for one line: `findOne` on its
        account, save the line row, then `updateBalance` by the polarity
        delta of that account's type. */
    method PostOne(entryId: Id, line: LineInput)
      requires Valid() && IndexOf(registry.accounts, line.accountId).Some?
      modifies this, registry
      ensures Valid() && entries == old(entries)
      ensures registry.accounts == PostLine(old(registry.accounts), line)
      ensures lines == old(lines) + [JournalEntryLine(entryId, line.accountId, line.side, line.amount, line.description)]
    {
      ghost var k := IndexOf(registry.accounts, line.accountId).value;
      var found := registry.FindOne(line.accountId);
      assert found.value == registry.accounts[k];
      lines := lines + [JournalEntryLine(entryId, line.accountId, line.side, line.amount, line.description)];
      var _ := registry.UpdateBalance(line.accountId, Polarity(found.value.kind, line.side, line.amount));
    }

    /** The posting loop of `createJournalEntry`: for each line, save its
        row and move its account's balance by the polarity delta. */
    method PostAll(entryId: Id, ls: seq<LineInput>)
      requires Valid()
      requires forall k :: 0 <= k < |ls| ==> IndexOf(registry.accounts, ls[k].accountId).Some?
      modifies this, registry
      ensures Valid() && entries == old(entries)
      ensures registry.accounts == PostLines(old(registry.accounts), ls)
      ensures lines == old(lines) + LineRows(entryId, ls)
    {
      ghost var start := registry.accounts;
      ghost var startLines := lines;
      var i := 0;
      while i < |ls|
        invariant 0 <= i <= |ls|
        invariant Valid() && entries == old(entries)
        invariant registry.accounts == PostLines(start, ls[..i])
        invariant lines == startLines + LineRows(entryId, ls[..i])
      {
        assert IndexOf(start, ls[i].accountId).Some?;
        PostNextLine(start, ls, i, entryId);
        SameIdsSameIndex(start, registry.accounts, ls[i].accountId);
        ghost var row := JournalEntryLine(entryId, ls[i].accountId, ls[i].side, ls[i].amount, ls[i].description);
        AppendAssociates(startLines, LineRows(entryId, ls[..i]), row);
        PostOne(entryId, ls[i]);
        i := i + 1;
      }
      assert ls[..|ls|] == ls;
    }

    /** `createJournalEntry`; `today` and `now` are the clock readings. */
    method CreateJournalEntry(request: JournalRequest, createdBy: Id, entryId: Id, today: CalendarDate, now: int)
      returns (r: Result<JournalEntry>)
      requires Valid()
      modifies this, registry
      ensures Valid()
      ensures Journalled(request, createdBy, entryId, today, now, r)
      ensures r.Ok? ==> r.value.totalAmount == TotalDebits(request.lines)
    {
      var debits := TotalDebits(request.lines);
      var credits := TotalCredits(request.lines);
      if Abs(debits - credits) > Tolerance {
        return Err(Unbalanced(debits, credits));
      }
      var refusal := CheckAccounts(request.lines);
      if refusal.Some? {
        return Err(refusal.value);
      }
      AllAccountsPostable(registry.accounts, request.lines);
      var number := GenerateNumber(JournalPrefix, today, NewestEntryNumber(entries));
      var entry := NewEntry(entryId, number, request, createdBy, now);
      entries := entries + [entry];
      PostAll(entryId, request.lines);
      return Ok(entry);
    }

    /** `recordSaleTransaction`. */
    method RecordSaleTransaction(saleId: Id, cashAccountId: Id, salesAccountId: Id, totalAmount: Money,
                                 paidAmount: Money, createdBy: Id, entryId: Id, today: CalendarDate, now: int)
      returns (r: Result<JournalEntry>)
      requires Valid()
      modifies this, registry
      ensures Valid()
      ensures Journalled(JournalRequest(Sale, "Sale transaction", today,
                                        SaleLines(cashAccountId, salesAccountId, totalAmount, paidAmount),
                                        Some(saleId), Some("sale")),
                         createdBy, entryId, today, now, r)
    {
      var request := JournalRequest(Sale, "Sale transaction", today,
                                    SaleLines(cashAccountId, salesAccountId, totalAmount, paidAmount),
                                    Some(saleId), Some("sale"));
      r := CreateJournalEntry(request, createdBy, entryId, today, now);
    }

    /** `recordPayment`. */
    method RecordPayment(fromAccountId: Id, toAccountId: Id, amount: Money, description: string,
                         createdBy: Id, entryId: Id, today: CalendarDate, now: int)
      returns (r: Result<JournalEntry>)
      requires Valid()
      modifies this, registry
      ensures Valid()
      ensures Journalled(JournalRequest(Payment, description, today,
                                        PaymentLines(fromAccountId, toAccountId, amount, description), None, None),
                         createdBy, entryId, today, now, r)
    {
      var request := JournalRequest(Payment, description, today,
                                    PaymentLines(fromAccountId, toAccountId, amount, description), None, None);
      r := CreateJournalEntry(request, createdBy, entryId, today, now);
    }

    /** `recordAdjustment`, balanced against the fixed adjustment account. */
    method RecordAdjustment(accountId: Id, amount: Money, side: EntryType, description: string,
                            createdBy: Id, entryId: Id, today: CalendarDate, now: int)
      returns (r: Result<JournalEntry>)
      requires Valid()
      modifies this, registry
      ensures Valid()
      ensures Journalled(JournalRequest(Adjustment, description, today,
                                        AdjustmentLines(accountId, amount, side, description), None, None),
                         createdBy, entryId, today, now, r)
    {
      var request := JournalRequest(Adjustment, description, today,
                                    AdjustmentLines(accountId, amount, side, description), None, None);
      r := CreateJournalEntry(request, createdBy, entryId, today, now);
    }

    /** `getTrialBalance`: one row per active account, the column totals,
        and whether they agree to within 0.01; `date` is not used. */
    method GetTrialBalance(date: CalendarDate) returns (tb: TrialBalance)
      requires Valid()
      ensures tb.accounts == TrialRows(registry.FindAll())
      ensures tb.totalDebits == DebitColumnTotal(registry.FindAll())
      ensures tb.totalCredits == CreditColumnTotal(registry.FindAll())
      ensures tb.totalDebits >= 0.0 && tb.totalCredits >= 0.0
      ensures tb.totalDebits - tb.totalCredits == ActiveIdentity(registry.accounts)
      ensures tb.isBalanced <==> Abs(tb.totalDebits - tb.totalCredits) < Tolerance
    {
      var accounts := registry.FindAll();
      var rows: seq<TrialRow> := [];
      var totalDebits, totalCredits := 0.0, 0.0;
      var i := 0;
      while i < |accounts|
        invariant 0 <= i <= |accounts|
        invariant rows == TrialRows(accounts[..i])
        invariant totalDebits == DebitColumnTotal(accounts[..i])
        invariant totalCredits == CreditColumnTotal(accounts[..i])
      {
        assert accounts[..i + 1][..i] == accounts[..i];
        var row := Columns(accounts[i]);
        totalDebits := totalDebits + row.debitBalance;
        totalCredits := totalCredits + row.creditBalance;
        rows := rows + [row];
        i := i + 1;
      }
      assert accounts[..|accounts|] == accounts;
      ColumnTotalsDifference(accounts);
      ActiveIdentityIsIdentityOfActive(registry.accounts);
      tb := TrialBalance(rows, totalDebits, totalCredits, Abs(totalDebits - totalCredits) < Tolerance);
    }

    /** `getJournalEntries`: the matching entries, newest first, one page of
        them, their count and the page count. */
    function GetJournalEntries(page: nat, limit: nat, q: EntryQuery): (r: EntryPage)
      requires 1 <= page && 1 <= limit <= 100
      reads this
      ensures r.page == page && r.total == |MatchingEntries(entries, lines, q)|
      ensures r.totalPages == PageCount(r.total, limit)
      ensures |r.entries| <= limit && SortedBy(r.entries, NewestFirst)
      ensures forall e :: e in r.entries ==> e in entries && MatchesQuery(e, lines, q)
      ensures r.entries == SkipTake(SortBy(MatchingEntries(entries, lines, q), NewestFirst), PageOffset(page, limit), limit)
    {
      var matching := MatchingEntries(entries, lines, q);
      var ordered := SortBy(matching, NewestFirst);
      var shown := SkipTake(ordered, PageOffset(page, limit), limit);
      SkipTakeSorted(ordered, PageOffset(page, limit), limit, NewestFirst);
      EntryPage(shown, |matching|, page, PageCount(|matching|, limit))
    }

    /** `getAccountStatement`: the account's lines within the bounds, oldest
        first; the opening balance is always 0 and the closing balance is the
        live balance. */
    function GetAccountStatement(accountId: Id, startDate: Option<CalendarDate>, endDate: Option<CalendarDate>)
      : (r: Result<Statement>)
      reads this, registry
      ensures r.Err? <==> registry.FindOne(accountId).Err?
      ensures r.Err? ==> r.error == NotFound("Account")
      ensures r.Ok? ==> (r.value.account == registry.FindOne(accountId).value
                         && r.value.openingBalance == 0.0
                         && r.value.closingBalance == r.value.account.balance)
      ensures r.Ok? ==> SortedBy(r.value.transactions, OldestFirst)
      ensures r.Ok? ==> forall row :: row in r.value.transactions <==>
                row in Joined(entries, lines) && row.line.accountId == accountId
                && WithinBounds(row.entry.transactionDate, startDate, endDate)
      ensures r.Ok? ==>
                forall row :: multiset(r.value.transactions)[row]
                                == if row.line.accountId == accountId
                                      && WithinBounds(row.entry.transactionDate, startDate, endDate)
                                   then multiset(Joined(entries, lines))[row] else 0
    {
      match registry.FindOne(accountId)
      case Err(e) => Err(e)
      case Ok(account) =>
        var rows := SortBy(StatementRows(Joined(entries, lines), accountId, startDate, endDate), OldestFirst);
        StatementRowsMultiplicity(Joined(entries, lines), accountId, startDate, endDate);
        Ok(Statement(account, rows, 0.0, account.balance))
    }

    /** `getAccountBalance` as its query is written: the entry is joined for
        the ordering but not selected, so the line read back carries no
        entry and the last transaction date is always absent. */
    function GetAccountBalanceAsWritten(accountId: Id): (r: Result<AccountBalance>)
      reads this, registry
      ensures r.Err? <==> registry.FindOne(accountId).Err?
      ensures r.Err? ==> r.error == NotFound("Account")
      ensures r.Ok? ==> (r.value.account == registry.FindOne(accountId).value
                         && r.value.balance == r.value.account.balance
                         && r.value.lastTransactionDate.None?)
    {
      match registry.FindOne(accountId)
      case Err(e) => Err(e)
      case Ok(account) => Ok(AccountBalance(account, account.balance, None))
    }

    /** An account with a posted line shows the difference: the query as
        written reports no last transaction date, while the account does
        have one. */
    lemma LastDateLostAsWritten(accountId: Id, row: LedgerRow)
      requires registry.FindOne(accountId).Ok?
      requires row in Joined(entries, lines) && row.line.accountId == accountId
      ensures GetAccountBalanceAsWritten(accountId).Ok?
      ensures GetAccountBalanceAsWritten(accountId).value.lastTransactionDate.None?
      ensures GetAccountBalance(accountId).value.lastTransactionDate.Some?
    {
    }

    /** `getAccountBalance` with the entry selected by the join
        (`leftJoinAndSelect`): the live balance and the transaction date
        of the account's latest line, if it has one. */
    function GetAccountBalance(accountId: Id): (r: Result<AccountBalance>)
      reads this, registry
      ensures r.Err? <==> registry.FindOne(accountId).Err?
      ensures r.Ok? ==> (r.value.account == registry.FindOne(accountId).value
                         && r.value.balance == r.value.account.balance)
      ensures r.Ok? ==> (r.value.lastTransactionDate.Some? <==>
                exists row :: row in Joined(entries, lines) && row.line.accountId == accountId)
      ensures r.Ok? && r.value.lastTransactionDate.Some? ==>
                forall row :: row in Joined(entries, lines) && row.line.accountId == accountId
                  ==> DayNumber(row.entry.transactionDate) <= DayNumber(r.value.lastTransactionDate.value)
      ensures r.Ok? && r.value.lastTransactionDate.Some? ==>
                exists row :: row in Joined(entries, lines) && row.line.accountId == accountId
                  && row.entry.transactionDate == r.value.lastTransactionDate.value
    {
      match registry.FindOne(accountId)
      case Err(e) => Err(e)
      case Ok(account) =>
        var rows := SortBy(StatementRows(Joined(entries, lines), accountId, None, None), NewestRowFirst);
        var last := if |rows| == 0 then None else Some(rows[0].entry.transactionDate);
        assert |rows| > 0 ==> forall row :: row in rows ==> KeyLe(NewestRowFirst(rows[0]), NewestRowFirst(row));
        assert |rows| > 0 ==> rows[0] in rows;
        Ok(AccountBalance(account, account.balance, last))
    }
  }
}
