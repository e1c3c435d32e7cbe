/**
 * A camt.053.001.08 statement as the converter reads it, already taken out
 * of the XML tree.
 *
 * Each element the converter tests with `isset` is an `Option`. Each element
 * it only casts with `(string)` is a plain string, because a missing element
 * casts to "". Amounts are non-negative integers of cents. Dates are the
 * `YYYY-MM-DD` text of the `Dt` element.
 */
module Camt {
  import opened Wrappers
  import opened Text

  /** `BkTxCd`: `Domn/Cd`, `Domn/Fmly/Cd`, `Domn/Fmly/SubFmlyCd` and `Prtry/Cd`. */
  datatype BankTxCode = BankTxCode(
    domain: Option<string>,
    family: Option<string>,
    subFamily: Option<string>,
    proprietary: Option<string>)

  /**
   * The leaves of `NtryDtls/TxDtls` the `:86:` field draws on. A missing
   * `NtryDtls` is the value with every leaf `None`.
   */
  datatype TxDetails = TxDetails(
    paymentInfoId: Option<string>,     // Refs/PmtInfId
    endToEndId: Option<string>,        // Refs/EndToEndId
    mandateId: Option<string>,         // Refs/MndtId
    unstructured: Option<string>,      // RmtInf/Ustrd
    creditorRef: Option<string>,       // RmtInf/Strd/CdtrRefInf/Ref
    debtorIban: Option<string>,        // RltdPties/DbtrAcct/Id/IBAN
    creditorIban: Option<string>,      // RltdPties/CdtrAcct/Id/IBAN
    debtorName: Option<string>,        // RltdPties/Dbtr/Nm
    creditorName: Option<string>,      // RltdPties/Cdtr/Nm
    creditorOtherId: Option<string>)   // Cdtr/Id/OrgId/Othr/Id

  /** One `Ntry`. */
  datatype Entry = Entry(
    amount: nat,                  // Amt, in cents
    creditDebit: string,          // CdtDbtInd
    reversal: Option<string>,     // RvslInd
    valueDate: string,            // ValDt/Dt
    bookingDate: string,          // BookgDt/Dt
    code: BankTxCode,             // BkTxCd
    servicerRef: string,          // AcctSvcrRef
    additionalInfo: Option<string>, // AddtlNtryInf
    details: TxDetails)           // NtryDtls/TxDtls

  /** One `Bal`. */
  datatype Balance = Balance(
    creditDebit: string,          // CdtDbtInd
    date: string,                 // Dt/Dt
    currency: string,             // Amt/@Ccy
    amount: nat)                  // Amt, in cents

  /** One `Stmt`. */
  datatype Statement = Statement(
    id: string,                   // Id
    iban: string,                 // Acct/Id/IBAN
    sequenceNumber: string,       // ElctrncSeqNb
    balances: seq<Balance>,       // Bal, in document order
    entries: seq<Entry>)          // Ntry, in document order

  // ---------------------------------------------------------------------
  // Well-formed input

  function Year(d: string): nat
    requires |d| == 10 && IsDigits(d[..4])
  {
    DecimalValue(d[..4])
  }

  function Month(d: string): nat
    requires |d| == 10 && IsDigits(d[5..7])
  {
    DecimalValue(d[5..7])
  }

  function Day(d: string): nat
    requires |d| == 10 && IsDigits(d[8..10])
  {
    DecimalValue(d[8..10])
  }

  predicate IsLeapYear(y: nat)
  {
    y % 4 == 0 && (y % 100 != 0 || y % 400 == 0)
  }

  function DaysInMonth(y: nat, m: nat): nat
    requires 1 <= m <= 12
  {
    if m == 2 then (if IsLeapYear(y) then 29 else 28)
    else if m == 4 || m == 6 || m == 9 || m == 11 then 30
    else 31
  }

  /** `YYYY-MM-DD` naming a day of the Gregorian calendar. */
  predicate IsCalendarDate(d: string)
  {
    && |d| == 10
    && IsDigits(d[..4]) && d[4] == '-' && IsDigits(d[5..7]) && d[7] == '-' && IsDigits(d[8..10])
    && 1 <= Month(d) <= 12
    && 1 <= Day(d) <= DaysInMonth(Year(d), Month(d))
  }

  predicate WellFormedEntry(e: Entry)
  {
    IsCalendarDate(e.valueDate) && IsCalendarDate(e.bookingDate)
  }

  /** A statement has an opening and a closing balance, and every date in it is a calendar date. */
  predicate WellFormedStatement(s: Statement)
  {
    && |s.balances| >= 2
    && IsCalendarDate(s.balances[0].date)
    && IsCalendarDate(s.balances[1].date)
    && forall i :: 0 <= i < |s.entries| ==> WellFormedEntry(s.entries[i])
  }
}
