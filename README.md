# camt.053 to MT940 converter — Dafny model

This project models the core of `CAMT053ToMT940Converter`. The converter turns an
ISO 20022 camt.053 bank statement into the SWIFT MT940 text format used by
German banking software. Each `Stmt` becomes one MT940 block:

- `:20:`, the statement id;
- `:25:`, bank code and account number, taken from the IBAN;
- `:28C:`, the sequence number;
- `:60F:`, the opening balance;
- per `Ntry`, a `:61:` statement line and a `:86:` field;
- `:62F:`, the closing balance.

The lines of a block are joined by CRLF. Blocks are separated by CRLF "-" CRLF, and the
document ends with CRLF "-".

The `:86:` field is made of numbered sub-fields:

- `?00`, the booking text;
- `?10`, the payment information id;
- `?20`-`?29`, the remittance text in 27-byte pieces;
- `?30`/`?31`, the counterparty's bank code and account number;
- `?32`/`?33`, the counterparty's name;
- `?60`-`?63`, the SEPA references.

The sub-fields are packed greedily into lines of at most 65 bytes. The first line carries
the tag and the 3-digit transaction-type code (GVC), which a static table maps from the
bank transaction code triple.

Modules, one per file:

- `Wrappers` (`wrappers.dfy`): `Option`.
- `Text` (`text.dfy`): PHP's byte-string built-ins (`implode`, `substr`, `str_split`,
  `str_replace`, `truncate`) and decimal digits.
- `Camt` (`camt.dfy`): the statement data already taken out of the XML tree.
- `Iban` (`iban.dfy`): bank code and account number from an IBAN.
- `Gvc` (`gvc.dfy`): the transaction-type code table.
- `Formatters` (`formatters.dfy`): dates, amounts, the balance lines and the `:61:` line.
- `Purpose` (`purpose.dfy`): the `:86:` field.
- `Converter` (`converter.dfy`): `convertStatement` and `convert`.

The source's loops (`formatPurpose`, `convertStatement`, `convert`) are methods. Each is
proved against a specification function, and the lemmas about that function state what
the output looks like. Everything else is pure functions and lemmas.

Where the converter's own documentation and its code disagree, the model follows the code:

- The `:61:` line has no "N" between the amount and the booking code, although the format
  comment on the line before the `return` of `formatTransaction` shows one.
- The booking code is cut to four bytes but not padded, so a shorter proprietary code
  gives a shorter code.
- When the IBAN is not a German one, the `:25:` value is the IBAN with its spaces
  removed, not the IBAN as given.
- The key "LDAS|FTDP|RPMT" is listed twice in the GVC table, first with 823 and then
  with 829. In a PHP array literal the later entry wins, so the code is 829.
- `?:` treats both "" and "0" as false, so `ElctrncSeqNb` values "" and "0" both
  become "1".
- Sub-field `?62` reads `TxDtls/Cdtr/Id/OrgId/Othr/Id` (creditor id) as the code does.

## Model

| member | source | states |
|---|---|---|
| Text.Truncate | class/CAMT053ToMT940Converter.php:240-246 | the result is a prefix of the text, of length min(length, limit) |
| Text.ChunksSplit | class/CAMT053ToMT940Converter.php:146 | the pieces of `str_split` glue back to the text; all but the last have exactly 27 bytes; none is empty for a non-empty text; the first is the 27-byte prefix |
| Text.ChunkAt | class/CAMT053ToMT940Converter.php:146-149 | piece k exists exactly when byte 27·k does, and is the (at most) 27 bytes from there |
| Text.StripSpaces | class/CAMT053ToMT940Converter.php:456 | no space is left, the text gets no longer, and a text without spaces is unchanged |
| Text.StripSpacesKeepsOthers | class/CAMT053ToMT940Converter.php:456 | every byte other than a space is kept as often as it occurs |
| Text.StripSpacesByte | class/CAMT053ToMT940Converter.php:456 | one byte is dropped exactly when it is a space |
| Text.StripSpacesAppend | class/CAMT053ToMT940Converter.php:456 | removing spaces from two texts one after the other is removing them from each, so the kept bytes stay in order |
| Text.Chunks | class/CAMT053ToMT940Converter.php:146 | `str_split` gives at least one piece, and no piece has more than the piece size |
| Text.Join | class/CAMT053ToMT940Converter.php:41 | `implode` of no strings is "", of one string is that string, and the first string always opens the result |
| Text.JoinTerminated | class/CAMT053ToMT940Converter.php:41 | joined text followed by one more separator is every string followed by the separator, in order |
| Text.TwoDigits | class/CAMT053ToMT940Converter.php:218 | `str_pad($code, 2, '0', STR_PAD_LEFT)` of a code below 100: exactly two digits worth the code |
| Text.NatToDecimal | class/CAMT053ToMT940Converter.php:479-484 | the digits of the whole part: digits only, worth the number, no leading zero |
| Iban.BankCode | class/CAMT053ToMT940Converter.php:454-461 | the bank code has 8 bytes or is empty, and holds no space |
| Iban.AccountNumber | class/CAMT053ToMT940Converter.php:463-470 | the account number has 10 bytes or is empty, and holds no space |
| Iban.AccountField | class/CAMT053ToMT940Converter.php:486-507 | the `:25:` value holds no space |
| Iban.Decomposition | class/CAMT053ToMT940Converter.php:454-470 | both directions: for a German IBAN (22 bytes after stripping spaces, starting "DE") it is 4 bytes, then the bank code, then the account number, and `:25:` is "bankcode/account"; for any other IBAN both parts are "" and `:25:` is the stripped IBAN |
| Iban.PartsPresentTogether | class/CAMT053ToMT940Converter.php:454-470 | the bank code is non-empty iff the account number is, iff the stripped IBAN is German |
| Iban.SpacesIgnored | class/CAMT053ToMT940Converter.php:486-507 | spaces in the IBAN change none of the three results |
| Gvc.LastCodeListed | class/CAMT053ToMT940Converter.php:447-448 | a code found for a key is one that an entry lists for that key |
| Gvc.LastCodeAppend | class/CAMT053ToMT940Converter.php:270-445 | in a list followed by more entries, a key the later entries list takes their code; otherwise the code comes from the earlier part |
| Gvc.TableAsListed | class/CAMT053ToMT940Converter.php:270-445 | for every key, the lookup by parts gives the code of the last entry that lists the key in the table, taken in source order |
| Gvc.ExtractGvc | class/CAMT053ToMT940Converter.php:248-452 | the code of the last table entry listed for the entry's key, "999" when no entry lists it |
| Gvc.ExtractGvcAsListed | class/CAMT053ToMT940Converter.php:248-452 | the entry's code is the code of the last table entry for its "domain\|family\|subfamily" key (absent parts as ""), and "999" when no entry lists that key |
| Gvc.TableKeys | class/CAMT053ToMT940Converter.php:270-445 | every key of the table is three 4-byte codes separated by two "\|", and no entry has the code "999" |
| Gvc.OnlyCompleteTriplesFound | class/CAMT053ToMT940Converter.php:251-268 | a key is found only when domain, family and sub-family all have 4 bytes |
| Gvc.IncompleteCodeIsUnknown | class/CAMT053ToMT940Converter.php:251-268 | an entry missing any of the three codes gets "999" |
| Gvc.UnknownExactlyWhenUnlisted | class/CAMT053ToMT940Converter.php:447-451 | both directions: the code is "999" exactly when the key is not in the table |
| Gvc.RepeatedKeyTakesLaterCode | class/CAMT053ToMT940Converter.php:434-436 | the key listed twice gets the later code, 829 |
| Formatters.FormatDate | class/CAMT053ToMT940Converter.php:472-477 | the date is written in six bytes |
| Formatters.FormatDateValue | class/CAMT053ToMT940Converter.php:472-477 | the six bytes are digits spelling two-digit year, month and day |
| Formatters.BookingDay | class/CAMT053ToMT940Converter.php:93 | the booking date part has four bytes |
| Formatters.BookingDayValue | class/CAMT053ToMT940Converter.php:93 | the booking date part is four digits spelling month and day |
| Formatters.FormatAmount | class/CAMT053ToMT940Converter.php:479-484 | at least four bytes, with the decimal comma before the last two |
| Formatters.AmountRoundTrip | class/CAMT053ToMT940Converter.php:479-484 | the amount text reads back as the same number of cents, and its only "," stands before the last two digits |
| Formatters.AmountExample | class/CAMT053ToMT940Converter.php:479-484 | 12.05 becomes "12,05" |
| Formatters.ZeroAmount | class/CAMT053ToMT940Converter.php:479-484 | 0 becomes "0,00" |
| Formatters.CreditDebitMark | class/CAMT053ToMT940Converter.php:82 | "C" exactly for "CRDT", otherwise "D" |
| Formatters.IsReversal | class/CAMT053ToMT940Converter.php:98 | a reversal exactly when `RvslInd` is present and is the text "true" |
| Formatters.EntryMark | class/CAMT053ToMT940Converter.php:95-102 | the mark is C, D, RC or RD; it starts with "R" iff the entry is a reversal and ends with "C" iff it is a credit |
| Formatters.BookingCode | class/CAMT053ToMT940Converter.php:107-111 | at most 4 bytes: "NMSC" when there is no proprietary code, otherwise its prefix of min(length, 4) bytes |
| Formatters.Reference | class/CAMT053ToMT940Converter.php:113-114 | the prefix of the servicer reference with min(length, 16) bytes, all of it when it is short enough |
| Formatters.FormatBalance | class/CAMT053ToMT940Converter.php:80-88 | the balance line starts with its tag |
| Formatters.BalanceLayout | class/CAMT053ToMT940Converter.php:80-88 | read back field by field: tag, C iff credit, six date digits worth the date, the currency, an amount text worth the balance |
| Formatters.FormatTransaction | class/CAMT053ToMT940Converter.php:90-117 | the `:61:` line starts with its tag |
| Formatters.TransactionLayout | class/CAMT053ToMT940Converter.php:90-117 | read back: value date as six digits, booking date as four, the mark, then directly the amount, booking code and reference (no "N") |
| Purpose.FieldsAsExpected | class/CAMT053ToMT940Converter.php:122-210 | the collected sub-fields are exactly those an independent code-by-code description says exist: `?00` always; `?10` and `?60`-`?63` iff their element is present; `?20+k` iff the remittance text has byte 27·k; `?30`/`?31` only for a German IBAN, the debtor's preferred; `?33` only for a name longer than 27 bytes; in code order |
| Purpose.FieldsShape | class/CAMT053ToMT940Converter.php:122-210 | the first sub-field is `?00` with the booking text cut to 24 bytes, codes strictly increase and stay below 64, and every text has at most 27 bytes |
| Purpose.PackFromKeepsText | class/CAMT053ToMT940Converter.php:213-237 | joining the packed lines gives back the start of the line followed by every text |
| Purpose.PackLayout | class/CAMT053ToMT940Converter.php:213-237 | the lines hold the texts in order; only the first line carries `:86:`, every other starts with "?"; every line has at most 65 bytes; a line is closed only when the next text would not fit |
| Purpose.PurposeLayout | class/CAMT053ToMT940Converter.php:119-238 | for every entry: the field is never empty and opens with `:86:`, the GVC, `?00` and the booking text; nothing is lost; lines have at most 65 bytes; packing is greedy |
| Purpose.CollectFields | class/CAMT053ToMT940Converter.php:122-210 | the converter's insertion steps produce the sub-fields `FieldsAsExpected` describes |
| Purpose.AddRemittance | class/CAMT053ToMT940Converter.php:139-150 | the loop appends one `?20+i` field per 27-byte piece, at most ten |
| Purpose.AddCounterparty | class/CAMT053ToMT940Converter.php:152-176 | appends `?30`/`?31` from the debtor's IBAN, or the creditor's when the debtor has none |
| Purpose.AddName | class/CAMT053ToMT940Converter.php:178-193 | appends `?32`/`?33` from the debtor's name, or the creditor's |
| Purpose.AddSepa | class/CAMT053ToMT940Converter.php:195-210 | appends each of `?60`-`?63` exactly when its element is present, cut to 27 bytes |
| Purpose.PackFields | class/CAMT053ToMT940Converter.php:213-237 | the packing loop produces the greedy packing the lemmas describe |
| Purpose.FormatPurpose | class/CAMT053ToMT940Converter.php:119-238 | `formatPurpose` produces the `:86:` field `PurposeLayout` describes |
| Converter.SequenceNumber | class/CAMT053ToMT940Converter.php:57-59 | "" and "0" become "1"; any other value is kept; so the result is never "" or "0" |
| Converter.StatementFrame | class/CAMT053ToMT940Converter.php:44-78 | a statement has 5 + 2n lines: `:20:` id, `:25:` account, `:28C:` number, opening balance, ..., closing balance last |
| Converter.StatementEntries | class/CAMT053ToMT940Converter.php:65-71 | entry i, in document order, gives line 4+2i (its `:61:` line) and line 5+2i (its `:86:` field) |
| Converter.StatementTags | class/CAMT053ToMT940Converter.php:44-78 | every line starts with the tag its position calls for |
| Converter.AppendEntries | class/CAMT053ToMT940Converter.php:65-71 | the entry loop appends each entry's `:61:` line and `:86:` field, in order |
| Converter.ConvertStatement | class/CAMT053ToMT940Converter.php:44-78 | `convertStatement` produces the statement lines the lemmas describe, joined by CRLF |
| Converter.EmptyDocument | class/CAMT053ToMT940Converter.php:41 | a document without statements is "\r\n-" |
| Converter.DocumentTerminated | class/CAMT053ToMT940Converter.php:41 | the document starts with the first statement, and every statement, the last included, is followed by a line "-" |
| Converter.Convert | class/CAMT053ToMT940Converter.php:27-42 | `convert` converts every statement, in document order, and joins them |

## Left out

- Reading and writing files (`convertFile`, `convertDirectory`) and the command-line
  entry point: I/O, outside the converter's logic.
- XML parsing and XPath (`simplexml_load_string`, `registerXPathNamespace`). The model
  starts from the values the converter reads out of the tree. An element it tests with
  `isset` is an `Option`; an element it only casts to a string is a plain string.
- Transcoding the output to ISO-8859-1: character encoding is not modelled. The default
  booking text is kept as its UTF-8 bytes.
- `DateTime` parsing: dates are taken as `YYYY-MM-DD` calendar dates (a precondition).
  `new DateTime` on any other text is not modelled. It throws an exception on text it
  cannot parse; `convertDirectory` catches that and moves the file to `error/`. It rolls
  an impossible date such as 2024-02-30 over to the next month. It reads an absent date
  (cast to "") as the current date, and the clock is not modelled.
- Formatters.FormatAmount: works on a non-negative whole number of cents. It does not model
  `number_format`'s float rounding, negative amounts, or amount texts that are not
  decimal numbers.
- Statements with fewer than two balances, and entries whose dates are not calendar dates:
  these are preconditions (`WellFormedStatement`, `WellFormedEntry`). The converter does
  not reject them. A missing `Bal[1]` gives a `:62F:` line with mark "D", today's date, no
  currency and amount "0,00". Bad dates behave as in the line above.
