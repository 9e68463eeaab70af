/** The date-scoped document numbers `PREFIX-YYYYMMDD-NNNN` that five
    services mint the same way: journal entries (JE), invoices (INV),
    purchase orders (PO), sale returns (RET) and purchase returns (PRET).
    The newest row of the table (by creation time) is read; if its number
    starts with today's `PREFIX-YYYYMMDD`, its third dash-separated field is
    parsed and incremented, otherwise the sequence restarts at 1; the
    sequence is left-padded with '0' to four characters. */
module Numbering {
  import opened Common

  const JournalPrefix := "JE"
  const InvoicePrefix := "INV"
  const PurchaseOrderPrefix := "PO"
  const SaleReturnPrefix := "RET"
  const PurchaseReturnPrefix := "PRET"

  /** A calendar date as `toISOString` renders it (time zones are not modelled). */
  datatype CalendarDate = CalendarDate(year: nat, month: nat, day: nat)

  predicate ValidDate(d: CalendarDate) {
    d.year <= 9999 && 1 <= d.month <= 12 && 1 <= d.day <= 31
  }

  /** A day number that orders dates as the calendar does. */
  function DayNumber(d: CalendarDate): int {
    d.year * 10000 + d.month * 100 + d.day
  }

  // ---------------------------------------------------------------------
  // Decimal text

  predicate IsDigit(c: char) {
    '0' <= c <= '9'
  }

  predicate AllDigits(s: string) {
    forall i :: 0 <= i < |s| ==> IsDigit(s[i])
  }

  function DigitValue(c: char): nat
    requires IsDigit(c)
  {
    c as int - '0' as int
  }

  function DigitChar(d: nat): (c: char)
    requires d < 10
    ensures IsDigit(c) && DigitValue(c) == d
  {
    (d + '0' as int) as char
  }

  /** `Number.prototype.toString()` of a non-negative integer. */
  function NatToString(n: nat): (s: string)
    ensures |s| >= 1 && AllDigits(s)
    decreases n
  {
    if n < 10 then [DigitChar(n)] else NatToString(n / 10) + [DigitChar(n % 10)]
  }

  /** The value of a string of decimal digits, most significant first. */
  function DigitsValue(s: string): nat
    requires AllDigits(s)
  {
    if |s| == 0 then 0 else DigitsValue(s[..|s| - 1]) * 10 + DigitValue(s[|s| - 1])
  }

  function Zeros(n: nat): (s: string)
    ensures |s| == n && AllDigits(s)
  {
    seq(n, _ => '0')
  }

  /** `String.prototype.padStart(width, "0")`. */
  function PadStart(s: string, width: nat): (r: string)
    ensures |r| == if |s| >= width then |s| else width
    ensures AllDigits(s) ==> AllDigits(r)
  {
    if |s| >= width then s else Zeros(width - |s|) + s
  }

  function Pow10(k: nat): nat {
    if k == 0 then 1 else 10 * Pow10(k - 1)
  }

  // ---------------------------------------------------------------------
  // Splitting and parsing

  function StartsWith(s: string, prefix: string): bool {
    |prefix| <= |s| && s[..|prefix|] == prefix
  }

  lemma StartsWithConcat(a: string, b: string)
    ensures StartsWith(a + b, a)
  {
    assert (a + b)[..|a|] == a;
  }

  /** `String.prototype.split("-")`. */
  function Split(s: string): (r: seq<string>)
    ensures |r| >= 1
  {
    if |s| == 0 then [""]
    else
      var rest := Split(s[1..]);
      if s[0] == '-' then [""] + rest else [[s[0]] + rest[0]] + rest[1..]
  }

  /** `parts[k]`, which is `undefined` past the end. */
  function FieldAt(parts: seq<string>, k: nat): Option<string> {
    if k < |parts| then Some(parts[k]) else None
  }

  /** The longest prefix of `s` made of decimal digits. */
  function LeadingDigits(s: string): (r: string)
    ensures AllDigits(r) && |r| <= |s| && r == s[..|r|]
  {
    if |s| == 0 || !IsDigit(s[0]) then "" else [s[0]] + LeadingDigits(s[1..])
  }

  /** `Number.parseInt` in base ten: the value of the leading digits, or
      `NaN` (here `None`) when there are none or the field is `undefined`. */
  function ParseInt(field: Option<string>): Option<nat> {
    match field
    case None => None
    case Some(s) =>
      var digits := LeadingDigits(s);
      if |digits| == 0 then None else Some(DigitsValue(digits))
  }

  // ---------------------------------------------------------------------
  // The generator

  /** `toISOString().slice(0, 10).replace(/-/g, "")`: YYYYMMDD. */
  function DateStamp(d: CalendarDate): string {
    PadStart(NatToString(d.year), 4) + PadStart(NatToString(d.month), 2)
      + PadStart(NatToString(d.day), 2)
  }

  /** A well-formed number for sequence `n`. */
  function FormatNumber(prefix: string, d: CalendarDate, n: nat): string {
    prefix + "-" + DateStamp(d) + "-" + PadStart(NatToString(n), 4)
  }

  /** `sequence.toString()`, where a sequence that is `NaN` prints as such. */
  function SequenceText(sequence: Option<nat>): string {
    match sequence
    case Some(n) => NatToString(n)
    case None => "NaN"
  }

  /** The sequence the generator picks, given the newest row's number. */
  function NextSequence(prefix: string, stamp: string, newest: Option<string>): Option<nat> {
    match newest
    case None => Some(1)
    case Some(last) =>
      if StartsWith(last, prefix + "-" + stamp) then
        match ParseInt(FieldAt(Split(last), 2))
        case Some(k) => Some(k + 1)
        case None => None
      else Some(1)
  }

  /** The number minted on `today` when the newest row carries `newest`. */
  function GenerateNumber(prefix: string, today: CalendarDate, newest: Option<string>): string {
    var stamp := DateStamp(today);
    prefix + "-" + stamp + "-" + PadStart(SequenceText(NextSequence(prefix, stamp, newest)), 4)
  }

  /** The row the generator reads: one with the greatest creation time (the
      later one in table order on a tie). */
  function NewestIndex<T>(rows: seq<T>, createdAt: T -> int): (r: Option<nat>)
    ensures r.None? <==> |rows| == 0
    ensures r.Some? ==> r.value < |rows|
    ensures r.Some? ==> forall j :: 0 <= j < |rows| ==> createdAt(rows[j]) <= createdAt(rows[r.value])
  {
    if |rows| == 0 then None
    else match NewestIndex(rows[..|rows| - 1], createdAt)
      case None => Some(|rows| - 1)
      case Some(k) =>
        if createdAt(rows[k]) > createdAt(rows[|rows| - 1]) then Some(k) else Some(|rows| - 1)
  }

  // ---------------------------------------------------------------------
  // Lemmas

  lemma {:induction false} NatToStringValue(n: nat)
    ensures DigitsValue(NatToString(n)) == n
    decreases n
  {
    if n >= 10 {
      NatToStringValue(n / 10);
      var s := NatToString(n);
      assert s[..|s| - 1] == NatToString(n / 10);
    }
  }

  lemma {:induction false} ZerosValue(n: nat)
    ensures DigitsValue(Zeros(n)) == 0
  {
    if n > 0 {
      ZerosValue(n - 1);
      assert Zeros(n)[..n - 1] == Zeros(n - 1);
    }
  }

  /** Leading zeros do not change a digit string's value. */
  lemma {:induction false} LeadingZerosValue(z: nat, s: string)
    requires AllDigits(s)
    ensures AllDigits(Zeros(z) + s) && DigitsValue(Zeros(z) + s) == DigitsValue(s)
    decreases |s|
  {
    var t := Zeros(z) + s;
    if |s| == 0 {
      assert t == Zeros(z);
      ZerosValue(z);
    } else {
      LeadingZerosValue(z, s[..|s| - 1]);
      assert t[..|t| - 1] == Zeros(z) + s[..|s| - 1];
    }
  }

  /** A padded decimal rendering reads back as the number it renders. */
  lemma PaddedValue(n: nat, width: nat)
    ensures AllDigits(PadStart(NatToString(n), width))
    ensures DigitsValue(PadStart(NatToString(n), width)) == n
  {
    var s := NatToString(n);
    NatToStringValue(n);
    if |s| < width {
      LeadingZerosValue(width - |s|, s);
    }
  }

  lemma {:induction false} NatToStringLength(n: nat, k: nat)
    requires 1 <= k && n < Pow10(k)
    ensures |NatToString(n)| <= k
    decreases k
  {
    if n >= 10 {
      assert k > 1;
      NatToStringLength(n / 10, k - 1);
    }
  }

  lemma {:induction false} LeadingDigitsOfDigits(s: string)
    requires AllDigits(s)
    ensures LeadingDigits(s) == s
  {
    if |s| > 0 {
      LeadingDigitsOfDigits(s[1..]);
    }
  }

  lemma {:induction false} SplitWithoutDash(a: string)
    requires forall i :: 0 <= i < |a| ==> a[i] != '-'
    ensures Split(a) == [a]
  {
    if |a| > 0 {
      SplitWithoutDash(a[1..]);
      assert [a[0]] + a[1..] == a;
    }
  }

  lemma {:induction false} SplitAtDash(a: string, b: string)
    requires forall i :: 0 <= i < |a| ==> a[i] != '-'
    ensures Split(a + "-" + b) == [a] + Split(b)
  {
    var s := a + "-" + b;
    if |a| == 0 {
      assert s[1..] == b;
    } else {
      assert s[1..] == a[1..] + "-" + b;
      SplitAtDash(a[1..], b);
      assert [a[0]] + a[1..] == a;
    }
  }

  lemma DigitsHaveNoDash(s: string)
    requires AllDigits(s)
    ensures forall i :: 0 <= i < |s| ==> s[i] != '-'
  {
  }

  /** A valid date renders as exactly eight digits: four for the year, two
      for the month, two for the day. */
  lemma DateStampShape(d: CalendarDate)
    requires ValidDate(d)
    ensures |DateStamp(d)| == 8 && AllDigits(DateStamp(d))
    ensures DigitsValue(DateStamp(d)[..4]) == d.year
    ensures DigitsValue(DateStamp(d)[4..6]) == d.month
    ensures DigitsValue(DateStamp(d)[6..8]) == d.day
  {
    NatToStringLength(d.year, 4);
    NatToStringLength(d.month, 2);
    NatToStringLength(d.day, 2);
    PaddedValue(d.year, 4);
    PaddedValue(d.month, 2);
    PaddedValue(d.day, 2);
    var y, m, dd := PadStart(NatToString(d.year), 4), PadStart(NatToString(d.month), 2),
      PadStart(NatToString(d.day), 2);
    assert DateStamp(d) == y + m + dd;
    assert DateStamp(d)[..4] == y;
    assert DateStamp(d)[4..6] == m;
    assert DateStamp(d)[6..8] == dd;
  }

  /** Distinct valid dates have distinct stamps. */
  lemma DateStampInjective(a: CalendarDate, b: CalendarDate)
    requires ValidDate(a) && ValidDate(b) && DateStamp(a) == DateStamp(b)
    ensures a == b
  {
    DateStampShape(a);
    DateStampShape(b);
  }

  /** A stamp is all digits, whatever the date. */
  lemma DateStampDigits(d: CalendarDate)
    ensures AllDigits(DateStamp(d))
    ensures forall i :: 0 <= i < |DateStamp(d)| ==> DateStamp(d)[i] != '-'
  {
    var y, m, dd := PadStart(NatToString(d.year), 4), PadStart(NatToString(d.month), 2),
      PadStart(NatToString(d.day), 2);
    assert DateStamp(d) == y + m + dd;
  }

  /** Three dash-free fields joined by dashes split back into themselves. */
  lemma SplitThree(a: string, b: string, c: string)
    requires forall i :: 0 <= i < |a| ==> a[i] != '-'
    requires forall i :: 0 <= i < |b| ==> b[i] != '-'
    requires forall i :: 0 <= i < |c| ==> c[i] != '-'
    ensures Split(a + "-" + b + "-" + c) == [a, b, c]
  {
    assert a + "-" + b + "-" + c == a + "-" + (b + "-" + c);
    SplitAtDash(a, b + "-" + c);
    SplitAtDash(b, c);
    SplitWithoutDash(c);
  }

  /** The generator's parse step reads a well-formed number's sequence back. */
  lemma ParseFormatted(prefix: string, d: CalendarDate, n: nat)
    requires forall i :: 0 <= i < |prefix| ==> prefix[i] != '-'
    ensures ParseInt(FieldAt(Split(FormatNumber(prefix, d, n)), 2)) == Some(n)
  {
    var padded := PadStart(NatToString(n), 4);
    DateStampDigits(d);
    PaddedValue(n, 4);
    DigitsHaveNoDash(padded);
    SplitThree(prefix, DateStamp(d), padded);
    LeadingDigitsOfDigits(padded);
  }

  /** Numbers minted for one prefix and day are distinct for distinct sequences. */
  lemma FormatInjective(prefix: string, d: CalendarDate, n: nat, m: nat)
    requires forall i :: 0 <= i < |prefix| ==> prefix[i] != '-'
    requires ValidDate(d) && FormatNumber(prefix, d, n) == FormatNumber(prefix, d, m)
    ensures n == m
  {
    ParseFormatted(prefix, d, n);
    ParseFormatted(prefix, d, m);
  }

  /** An empty table starts the day at 0001. */
  lemma FirstNumberOfTable(prefix: string, today: CalendarDate)
    ensures GenerateNumber(prefix, today, None) == FormatNumber(prefix, today, 1)
  {
  }

  lemma SameDaySequence(prefix: string, today: CalendarDate, n: nat)
    requires forall i :: 0 <= i < |prefix| ==> prefix[i] != '-'
    requires ValidDate(today)
    ensures NextSequence(prefix, DateStamp(today), Some(FormatNumber(prefix, today, n))) == Some(n + 1)
  {
    var head := prefix + "-" + DateStamp(today);
    assert FormatNumber(prefix, today, n) == head + ("-" + PadStart(NatToString(n), 4));
    StartsWithConcat(head, "-" + PadStart(NatToString(n), 4));
    ParseFormatted(prefix, today, n);
  }

  /** Same day: the sequence is the newest row's plus one. */
  lemma NextOnSameDay(prefix: string, today: CalendarDate, n: nat)
    requires forall i :: 0 <= i < |prefix| ==> prefix[i] != '-'
    requires ValidDate(today)
    ensures GenerateNumber(prefix, today, Some(FormatNumber(prefix, today, n)))
         == FormatNumber(prefix, today, n + 1)
  {
    SameDaySequence(prefix, today, n);
  }

  /** New day: a newest row from another day restarts the sequence at 0001. */
  lemma ResetOnNewDay(prefix: string, today: CalendarDate, other: CalendarDate, n: nat)
    requires ValidDate(today) && ValidDate(other) && today != other
    ensures GenerateNumber(prefix, today, Some(FormatNumber(prefix, other, n)))
         == FormatNumber(prefix, today, 1)
  {
    var last := FormatNumber(prefix, other, n);
    var head := prefix + "-" + DateStamp(today);
    DateStampShape(today);
    DateStampShape(other);
    var a := prefix + "-";
    var p := |a|;
    assert DateStamp(other) != DateStamp(today);
    assert last[..p + 8] == a + DateStamp(other);
    assert head == a + DateStamp(today);
    assert (a + DateStamp(other))[p..] == DateStamp(other);
    assert (a + DateStamp(today))[p..] == DateStamp(today);
    assert !StartsWith(last, head);
  }

  /** A newest number of today's prefix with no third field parses to NaN,
      and the generator then emits the text `0NaN` as the sequence. */
  lemma MissingSequenceYieldsNaN(prefix: string, today: CalendarDate)
    requires forall i :: 0 <= i < |prefix| ==> prefix[i] != '-'
    ensures GenerateNumber(prefix, today, Some(prefix + "-" + DateStamp(today)))
         == prefix + "-" + DateStamp(today) + "-0NaN"
  {
    var stamp := DateStamp(today);
    DateStampDigits(today);
    SplitAtDash(prefix, stamp);
    SplitWithoutDash(stamp);
    assert Split(prefix + "-" + stamp) == [prefix, stamp];
    assert StartsWith(prefix + "-" + stamp, prefix + "-" + stamp);
    assert NextSequence(prefix, stamp, Some(prefix + "-" + stamp)) == None;
    assert PadStart(SequenceText(None), 4) == "0NaN";
  }

}
