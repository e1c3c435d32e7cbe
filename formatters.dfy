/**
 * The MT940 field formatters: dates, amounts, the `:60F:`/`:62F:` balance
 * lines and the `:61:` statement line.
 */
module Formatters {
  import opened Wrappers
  import opened Text
  import opened Camt

  // ---------------------------------------------------------------------
  // Dates

  /** The number `YYMMDD` stands for: two-digit year, month, day. */
  function DateNumber(d: string): nat
    requires IsCalendarDate(d)
  {
    (Year(d) % 100) * 10000 + Month(d) * 100 + Day(d)
  }

  lemma {:induction false} DateDigits(d: string)
    requires IsCalendarDate(d)
    ensures IsDigits(d[2..4] + d[5..7] + d[8..10])
    ensures DecimalValue(d[2..4] + d[5..7] + d[8..10]) == DateNumber(d)
  {
    assert d[..4] == d[..2] + d[2..4];
    DecimalValueAppend(d[..2], d[2..4]);
    DecimalValueBound(d[2..4]);
    assert (DecimalValue(d[..2]) * 100 + DecimalValue(d[2..4])) % 100 == DecimalValue(d[2..4]);
    assert Year(d) % 100 == DecimalValue(d[2..4]);
    DecimalValueAppend(d[2..4], d[5..7]);
    DecimalValueAppend(d[2..4] + d[5..7], d[8..10]);
  }

  /** `formatDate`: `YYYY-MM-DD` to `YYMMDD` (PHP `DateTime::format('ymd')`). */
  function FormatDate(d: string): (r: string)
    requires IsCalendarDate(d)
    ensures |r| == 6
  {
    d[2..4] + d[5..7] + d[8..10]
  }

  /** `formatDate` gives six digits that spell the two-digit year, the month and the day. */
  lemma FormatDateValue(d: string)
    requires IsCalendarDate(d)
    ensures IsDigits(FormatDate(d)) && DecimalValue(FormatDate(d)) == DateNumber(d)
  {
    DateDigits(d);
  }

  /** The booking-date part of `:61:`, `substr(formatDate($d), 2, 4)`: month and day. */
  function BookingDay(d: string): (r: string)
    requires IsCalendarDate(d)
    ensures |r| == 4
  {
    FormatDate(d)[2..6]
  }

  /** The booking-date part is four digits that spell the month and the day. */
  lemma BookingDayValue(d: string)
    requires IsCalendarDate(d)
    ensures IsDigits(BookingDay(d)) && DecimalValue(BookingDay(d)) == Month(d) * 100 + Day(d)
  {
    DateDigits(d);
    var ymd := FormatDate(d);
    assert ymd == d[2..4] + (d[5..7] + d[8..10]);
    assert ymd[2..6] == d[5..7] + d[8..10];
    DecimalValueAppend(d[5..7], d[8..10]);
  }

  // ---------------------------------------------------------------------
  // Amounts

  /** Decimal digits, one ",", two decimal digits; no leading zero before the comma unless the whole part is 0. */
  predicate IsAmountText(s: string)
  {
    && |s| >= 4
    && IsDigits(s[..|s| - 3]) && s[|s| - 3] == ',' && IsDigits(s[|s| - 2..])
    && (|s| > 4 ==> s[0] != '0')
  }

  /** The number of cents an amount text denotes. */
  function AmountValue(s: string): nat
    requires IsAmountText(s)
  {
    DecimalValue(s[..|s| - 3]) * 100 + DecimalValue(s[|s| - 2..])
  }

  /**
   * `formatAmount`: `number_format($amount, 2, ',', '')` of a non-negative
   * amount of cents. It has exactly one ",", which stands before the last
   * two digits, so no "." and no thousands separator; and it reads back as
   * the same amount.
   */
  function FormatAmount(cents: nat): (r: string)
    ensures |r| >= 4 && r[|r| - 3] == ','
  {
    NatToDecimal(cents / 100) + "," + TwoDigits(cents % 100)
  }

  /** `formatAmount` reads back as the same amount, with its only "," three bytes from the end. */
  lemma AmountRoundTrip(cents: nat)
    ensures var r := FormatAmount(cents);
      && IsAmountText(r) && AmountValue(r) == cents
      && forall i :: 0 <= i < |r| ==> (r[i] == ',' <==> i == |r| - 3)
  {
    var whole := NatToDecimal(cents / 100);
    var frac := TwoDigits(cents % 100);
    var r := FormatAmount(cents);
    assert r[..|r| - 3] == whole && r[|r| - 2..] == frac;
    assert forall i :: 0 <= i < |whole| ==> r[i] == whole[i];
  }

  /** 12.05 is written "12,05": the cents keep their leading zero. */
  lemma AmountExample()
    ensures FormatAmount(1205) == "12,05"
  {
    assert NatToDecimal(1) == "1";
    assert NatToDecimal(12) == "12";
    assert TwoDigits(5) == "05";
  }

  /** Zero is written "0,00". */
  lemma ZeroAmount()
    ensures FormatAmount(0) == "0,00"
  {
    assert NatToDecimal(0) == "0";
    assert TwoDigits(0) == "00";
  }

  // ---------------------------------------------------------------------
  // Credit/debit marks and the `:61:` parts

  /** "C" for a credit (`CdtDbtInd` is "CRDT"), "D" for anything else. */
  function CreditDebitMark(creditDebit: string): (r: string)
    ensures r == "C" || r == "D"
    ensures r == "C" <==> creditDebit == "CRDT"
  {
    if creditDebit == "CRDT" then "C" else "D"
  }

  /** An entry is a reversal exactly when `RvslInd` is present and is the text "true". */
  function IsReversal(reversal: Option<string>): (r: bool)
    ensures r <==> reversal == Some("true")
  {
    reversal.Some? && reversal.value == "true"
  }

  /**
   * The `:61:` mark: C, D, RC or RD. A reversal puts "R" before the letter
   * and keeps the letter; the letter is "C" exactly for a credit.
   */
  function EntryMark(creditDebit: string, reversal: Option<string>): (r: string)
    ensures r == (if IsReversal(reversal) then "R" else "") + CreditDebitMark(creditDebit)
    ensures r in {"C", "D", "RC", "RD"}
    ensures r[|r| - 1] == 'C' <==> creditDebit == "CRDT"
    ensures r[0] == 'R' <==> IsReversal(reversal)
  {
    var mark := CreditDebitMark(creditDebit);
    if IsReversal(reversal) then (if mark == "C" then "RC" else "RD") else mark
  }

  /**
   * The booking code: the first four bytes (at most) of `BkTxCd/Prtry/Cd`
   * when present, not padded; "NMSC" when absent.
   */
  function BookingCode(proprietary: Option<string>): (r: string)
    ensures |r| <= 4
    ensures proprietary.None? ==> r == "NMSC"
    ensures proprietary.Some? ==> r <= proprietary.value && |r| == Min(|proprietary.value|, 4)
  {
    match proprietary
    case None => "NMSC"
    case Some(c) => Truncate(c, 4)
  }

  /** The `:61:` reference: the first sixteen bytes (at most) of `AcctSvcrRef`. */
  function Reference(servicerRef: string): (r: string)
    ensures r <= servicerRef && |r| == Min(|servicerRef|, 16)
    ensures |servicerRef| <= 16 ==> r == servicerRef
  {
    Truncate(servicerRef, 16)
  }

  // ---------------------------------------------------------------------
  // Lines

  /**
   * `formatBalance`: tag, mark, date, currency, amount. The line can be read
   * back field by field: the tag, the mark (C exactly for a credit), six
   * date digits, the currency, and an amount text worth the balance amount.
   */
  function FormatBalance(tag: string, b: Balance): (r: string)
    requires IsCalendarDate(b.date)
    ensures |r| > |tag| && r[..|tag|] == tag
  {
    var r := tag + CreditDebitMark(b.creditDebit) + FormatDate(b.date) + b.currency + FormatAmount(b.amount);
    assert r[..|tag|] == tag;
    r
  }

  /**
   * A balance line reads back field by field: the tag, the mark (C exactly
   * for a credit), six digits for the date, the currency, and an amount
   * text worth the balance amount.
   */
  lemma BalanceLayout(tag: string, b: Balance)
    requires IsCalendarDate(b.date)
    ensures var r := FormatBalance(tag, b);
      && |r| >= |tag| + 7 + |b.currency|
      && r[..|tag|] == tag
      && (r[|tag|] == 'C' <==> b.creditDebit == "CRDT")
      && (r[|tag|] == 'C' || r[|tag|] == 'D')
      && IsDigits(r[|tag| + 1..|tag| + 7]) && DecimalValue(r[|tag| + 1..|tag| + 7]) == DateNumber(b.date)
      && r[|tag| + 7..|tag| + 7 + |b.currency|] == b.currency
      && IsAmountText(r[|tag| + 7 + |b.currency|..]) && AmountValue(r[|tag| + 7 + |b.currency|..]) == b.amount
  {
    var mark := CreditDebitMark(b.creditDebit);
    var date := FormatDate(b.date);
    var amount := FormatAmount(b.amount);
    var r := FormatBalance(tag, b);
    FormatDateValue(b.date);
    AmountRoundTrip(b.amount);
    assert r == tag + mark + date + b.currency + amount;
    assert r[|tag| + 1..|tag| + 7] == date;
    assert r[|tag| + 7..|tag| + 7 + |b.currency|] == b.currency;
    assert r[|tag| + 7 + |b.currency|..] == amount;
  }

  lemma StatementLineSlices(valueDate: string, bookingDate: string, mark: string, tail: string)
    requires |valueDate| == 6 && |bookingDate| == 4
    ensures var r := ":61:" + valueDate + bookingDate + mark + tail;
      && r[..4] == ":61:" && r[4..10] == valueDate && r[10..14] == bookingDate
      && r[14..14 + |mark|] == mark && r[14 + |mark|..] == tail
  {
    var r := ":61:" + valueDate + bookingDate + mark + tail;
    assert r == (":61:" + valueDate + bookingDate) + (mark + tail);
  }

  /**
   * `formatTransaction`: the `:61:` line. After the tag come the value date
   * `YYMMDD`, the booking date `MMDD` and the mark; then the amount, the
   * booking code and the reference, with nothing between them (in
   * particular no "N" before the booking code).
   */
  function FormatTransaction(e: Entry): (r: string)
    requires WellFormedEntry(e)
    ensures |r| >= 14 && r[..4] == ":61:"
  {
    var tail := FormatAmount(e.amount) + BookingCode(e.code.proprietary) + Reference(e.servicerRef);
    var r := ":61:" + FormatDate(e.valueDate) + BookingDay(e.bookingDate) + EntryMark(e.creditDebit, e.reversal) + tail;
    StatementLineSlices(FormatDate(e.valueDate), BookingDay(e.bookingDate), EntryMark(e.creditDebit, e.reversal), tail);
    r
  }

  /**
   * The `:61:` line read back: the value date as six digits, the booking
   * date as four, the mark, and then directly the amount text, the booking
   * code and the reference.
   */
  lemma TransactionLayout(e: Entry)
    requires WellFormedEntry(e)
    ensures var r := FormatTransaction(e); var m := EntryMark(e.creditDebit, e.reversal);
      && |r| >= 14 + |m| && r[..4] == ":61:"
      && IsDigits(r[4..10]) && DecimalValue(r[4..10]) == DateNumber(e.valueDate)
      && IsDigits(r[10..14]) && DecimalValue(r[10..14]) == Month(e.bookingDate) * 100 + Day(e.bookingDate)
      && r[14..14 + |m|] == m
      && r[14 + |m|..] == FormatAmount(e.amount) + BookingCode(e.code.proprietary) + Reference(e.servicerRef)
  {
    var tail := FormatAmount(e.amount) + BookingCode(e.code.proprietary) + Reference(e.servicerRef);
    FormatDateValue(e.valueDate);
    BookingDayValue(e.bookingDate);
    StatementLineSlices(FormatDate(e.valueDate), BookingDay(e.bookingDate), EntryMark(e.creditDebit, e.reversal), tail);
  }
}
