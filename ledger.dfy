/** The read-only ledger views (`LedgerService`): the general ledger, one
    account's ledger and the day book, each a filter and an ordering over
    the stored journal entries and lines. */
module Ledger {
  import opened Common
  import opened Numbering
  import opened Ordering
  import opened Accounting

  /** Milliseconds in a day. */
  const MsPerDay: int := 86400000

  /** The period filter of both ledgers: it applies, with both ends
      included, only when both bounds are given. */
  predicate InPeriod(d: CalendarDate, startDate: Option<CalendarDate>, endDate: Option<CalendarDate>) {
    startDate.Some? && endDate.Some?
    ==> Between(DayNumber(d), DayNumber(startDate.value), DayNumber(endDate.value))
  }

  /** Transaction date ascending, then creation time ascending. */
  function EntryDateOrder(e: JournalEntry): Key {
    Key(DayNumber(e.transactionDate), e.createdAt)
  }

  function EntriesInPeriod(entries: seq<JournalEntry>, startDate: Option<CalendarDate>, endDate: Option<CalendarDate>)
    : (r: seq<JournalEntry>)
    ensures forall e :: e in r <==> e in entries && InPeriod(e.transactionDate, startDate, endDate)
    ensures (startDate.None? || endDate.None?) ==> r == entries
  {
    if |entries| == 0 then []
    else
      var e := entries[|entries| - 1];
      var rest := EntriesInPeriod(entries[..|entries| - 1], startDate, endDate);
      assert entries == entries[..|entries| - 1] + [e];
      if InPeriod(e.transactionDate, startDate, endDate) then rest + [e] else rest
  }

  /** The period filter keeps each entry of the period as often as it is
      stored and drops the others. */
  lemma {:induction false} EntriesInPeriodMultiplicity(entries: seq<JournalEntry>,
                                                       startDate: Option<CalendarDate>, endDate: Option<CalendarDate>)
    ensures forall e :: multiset(EntriesInPeriod(entries, startDate, endDate))[e]
              == if InPeriod(e.transactionDate, startDate, endDate) then multiset(entries)[e] else 0
    decreases |entries|
  {
    if |entries| > 0 {
      var e := entries[|entries| - 1];
      assert entries == entries[..|entries| - 1] + [e];
      EntriesInPeriodMultiplicity(entries[..|entries| - 1], startDate, endDate);
    }
  }

  /** `getGeneralLedger`: the entries of the period (all of them unless both
      bounds are given), each as often as it is stored, oldest first. */
  function GeneralLedger(entries: seq<JournalEntry>, startDate: Option<CalendarDate>, endDate: Option<CalendarDate>)
    : (r: seq<JournalEntry>)
    ensures SortedBy(r, EntryDateOrder)
    ensures forall e :: e in r <==> e in entries && InPeriod(e.transactionDate, startDate, endDate)
    ensures (startDate.None? || endDate.None?) ==> multiset(r) == multiset(entries)
    ensures forall e :: multiset(r)[e]
              == if InPeriod(e.transactionDate, startDate, endDate) then multiset(entries)[e] else 0
  {
    EntriesInPeriodMultiplicity(entries, startDate, endDate);
    SortBy(EntriesInPeriod(entries, startDate, endDate), EntryDateOrder)
  }

  /** With one bound missing, the other is ignored: a start date alone
      lists the same entries as no bounds at all. */
  lemma OneBoundIsIgnored(entries: seq<JournalEntry>, startDate: CalendarDate)
    ensures multiset(GeneralLedger(entries, Some(startDate), None)) == multiset(GeneralLedger(entries, None, None))
    ensures multiset(GeneralLedger(entries, None, Some(startDate))) == multiset(entries)
  {
  }

  function AccountRows(rows: seq<LedgerRow>, accountId: Id, startDate: Option<CalendarDate>, endDate: Option<CalendarDate>)
    : (r: seq<LedgerRow>)
    ensures forall row :: row in r <==> row in rows && row.line.accountId == accountId
                                        && InPeriod(row.entry.transactionDate, startDate, endDate)
  {
    if |rows| == 0 then []
    else
      var row := rows[|rows| - 1];
      var rest := AccountRows(rows[..|rows| - 1], accountId, startDate, endDate);
      assert rows == rows[..|rows| - 1] + [row];
      if row.line.accountId == accountId && InPeriod(row.entry.transactionDate, startDate, endDate)
      then rest + [row] else rest
  }

  /** The account filter keeps each of the account's rows in the period as
      often as it occurs and drops the others. */
  lemma {:induction false} AccountRowsMultiplicity(rows: seq<LedgerRow>, accountId: Id,
                                                   startDate: Option<CalendarDate>, endDate: Option<CalendarDate>)
    ensures forall row :: multiset(AccountRows(rows, accountId, startDate, endDate))[row]
              == if row.line.accountId == accountId && InPeriod(row.entry.transactionDate, startDate, endDate)
                 then multiset(rows)[row] else 0
    decreases |rows|
  {
    if |rows| > 0 {
      var row := rows[|rows| - 1];
      assert rows == rows[..|rows| - 1] + [row];
      AccountRowsMultiplicity(rows[..|rows| - 1], accountId, startDate, endDate);
    }
  }

  /** `getAccountLedger`: the account's lines with their entries, under the
      same period rule, each line as often as it is stored, oldest first. */
  function AccountLedger(entries: seq<JournalEntry>, lines: seq<JournalEntryLine>, accountId: Id,
                         startDate: Option<CalendarDate>, endDate: Option<CalendarDate>)
    : (r: seq<LedgerRow>)
    ensures SortedBy(r, OldestFirst)
    ensures forall row :: row in r <==> row in Joined(entries, lines) && row.line.accountId == accountId
                                        && InPeriod(row.entry.transactionDate, startDate, endDate)
    ensures forall row :: multiset(r)[row]
              == if row.line.accountId == accountId && InPeriod(row.entry.transactionDate, startDate, endDate)
                 then multiset(Joined(entries, lines))[row] else 0
  {
    AccountRowsMultiplicity(Joined(entries, lines), accountId, startDate, endDate);
    SortBy(AccountRows(Joined(entries, lines), accountId, startDate, endDate), OldestFirst)
  }

  /** The account ledger and the account statement agree when both bounds
      are given (they differ only when exactly one is). */
  lemma LedgerAgreesWithStatement(entries: seq<JournalEntry>, lines: seq<JournalEntryLine>, accountId: Id,
                                  startDate: CalendarDate, endDate: CalendarDate, row: LedgerRow)
    ensures row in AccountLedger(entries, lines, accountId, Some(startDate), Some(endDate))
        <==> row in StatementRows(Joined(entries, lines), accountId, Some(startDate), Some(endDate))
  {
  }

  /** Local midnight of the day holding `date`, and one millisecond before
      the next midnight. */
  function DayStart(date: int): int {
    date - date % MsPerDay
  }

  function DayEnd(date: int): int {
    DayStart(date) + MsPerDay - 1
  }

  /** Creation time ascending. */
  function CreationOrder(e: JournalEntry): Key {
    Key(e.createdAt, 0)
  }

  function EntriesCreatedBetween(entries: seq<JournalEntry>, lo: int, hi: int): (r: seq<JournalEntry>)
    ensures forall e :: e in r <==> e in entries && Between(e.createdAt, lo, hi)
  {
    if |entries| == 0 then []
    else
      var e := entries[|entries| - 1];
      var rest := EntriesCreatedBetween(entries[..|entries| - 1], lo, hi);
      assert entries == entries[..|entries| - 1] + [e];
      if Between(e.createdAt, lo, hi) then rest + [e] else rest
  }

  /** The window filter keeps each entry created in `[lo, hi]` as often as
      it is stored and drops the others. */
  lemma {:induction false} EntriesCreatedBetweenMultiplicity(entries: seq<JournalEntry>, lo: int, hi: int)
    ensures forall e :: multiset(EntriesCreatedBetween(entries, lo, hi))[e]
              == if Between(e.createdAt, lo, hi) then multiset(entries)[e] else 0
    decreases |entries|
  {
    if |entries| > 0 {
      var e := entries[|entries| - 1];
      assert entries == entries[..|entries| - 1] + [e];
      EntriesCreatedBetweenMultiplicity(entries[..|entries| - 1], lo, hi);
    }
  }

  /** `getDayBook`: the entries created on the day of `date` (a timestamp
      in milliseconds), each as often as it is stored, in creation order. */
  function DayBook(entries: seq<JournalEntry>, date: int): (r: seq<JournalEntry>)
    ensures SortedBy(r, CreationOrder)
    ensures forall e :: e in r <==> e in entries && Between(e.createdAt, DayStart(date), DayEnd(date))
    ensures forall e :: multiset(r)[e]
              == if Between(e.createdAt, DayStart(date), DayEnd(date)) then multiset(entries)[e] else 0
  {
    EntriesCreatedBetweenMultiplicity(entries, DayStart(date), DayEnd(date));
    SortBy(EntriesCreatedBetween(entries, DayStart(date), DayEnd(date)), CreationOrder)
  }

  /** The day book's window is exactly the calendar day: an entry is listed
      iff it was created on the same day as `date`. */
  lemma DayBookIsOneDay(entries: seq<JournalEntry>, date: int, e: JournalEntry)
    ensures e in DayBook(entries, date) <==> e in entries && e.createdAt / MsPerDay == date / MsPerDay
  {
    var d := date / MsPerDay;
    assert DayStart(date) == d * MsPerDay;
    var c := e.createdAt;
    if DayStart(date) <= c <= DayEnd(date) {
      var off := c - d * MsPerDay;
      assert 0 <= off < MsPerDay;
      assert c == d * MsPerDay + off;
    }
    if c / MsPerDay == d {
      assert c == d * MsPerDay + c % MsPerDay;
    }
  }
}
