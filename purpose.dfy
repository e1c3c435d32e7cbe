/**
 * `formatPurpose`: the `:86:` field of one entry.
 *
 * The converter first collects the sub-fields `?00`, `?10`, `?20`-`?29`,
 * `?30`-`?33` and `?60`-`?63` in that order, each present only under its own
 * guard, and then packs their texts greedily into lines of at most 65 bytes,
 * the first of them opened by the tag `:86:` and the transaction-type code.
 */
module Purpose {
  import opened Wrappers
  import opened Text
  import opened Camt
  import opened Iban
  import opened Gvc

  const Tag := ":86:"
  const MaxLine := 65

  /** "SEPA-Überweisung" as its 17 UTF-8 bytes. */
  const DefaultBookingText := "SEPA-\U{C3}\U{9C}berweisung"

  /** One sub-field: its two-digit code as a number and its text. */
  datatype Field = Field(code: nat, value: string)

  // ---------------------------------------------------------------------
  // The sub-fields, as the converter inserts them

  /** `AddtlNtryInf` when present, the default text otherwise. */
  function BookingText(e: Entry): string
  {
    e.additionalInfo.GetOr(DefaultBookingText)
  }

  /** The counterparty's IBAN: the debtor's when present (even if it is not German), else the creditor's. */
  function CounterpartyIban(e: Entry): Option<string>
  {
    if e.details.debtorIban.Some? then e.details.debtorIban else e.details.creditorIban
  }

  /** The counterparty's name: the debtor's when present (even if empty), else the creditor's, else "". */
  function CounterpartyName(e: Entry): string
  {
    if e.details.debtorName.Some? then e.details.debtorName.value else e.details.creditorName.GetOr("")
  }

  /** A field that is there exactly when its element is, cut to 27 bytes. */
  function OptionalField(code: nat, element: Option<string>): seq<Field>
  {
    match element
    case None => []
    case Some(v) => [Field(code, Truncate(v, 27))]
  }

  /** A field that is there exactly when its value is not empty. */
  function NonEmptyField(code: nat, value: string): seq<Field>
  {
    if value == "" then [] else [Field(code, value)]
  }

  /** `?20`-`?29`: the first ten 27-byte pieces of the remittance text; none for an empty text. */
  function RemittanceFields(text: string): seq<Field>
  {
    if text == "" then []
    else
      var pieces := Chunks(text, 27);
      seq(Min(|pieces|, 10), i requires 0 <= i < Min(|pieces|, 10) => Field(20 + i, pieces[i]))
  }

  /** `?32` and `?33`: the first two 27-byte pieces of the name; none for an empty name. */
  function NameFields(name: string): seq<Field>
  {
    if name == "" then []
    else
      var pieces := Chunks(name, 27);
      [Field(32, pieces[0])] + (if |pieces| > 1 then [Field(33, pieces[1])] else [])
  }

  function CounterpartyBankCode(e: Entry): string
  {
    match CounterpartyIban(e)
    case None => ""
    case Some(iban) => BankCode(iban)
  }

  function CounterpartyAccount(e: Entry): string
  {
    match CounterpartyIban(e)
    case None => ""
    case Some(iban) => AccountNumber(iban)
  }

  /** `?00`, the booking text cut to 24 bytes, and `?10`, the payment information id. */
  function HeadFields(e: Entry): seq<Field>
  {
    [Field(0, Truncate(BookingText(e), 24))] + OptionalField(10, e.details.paymentInfoId)
  }

  /** `?30` and `?31`, the counterparty's bank code and account number when they are not empty. */
  function CounterpartyFields(e: Entry): seq<Field>
  {
    NonEmptyField(30, CounterpartyBankCode(e)) + NonEmptyField(31, CounterpartyAccount(e))
  }

  /** `?60`-`?63`: end-to-end id, mandate id, creditor id (`TxDtls/Cdtr`) and creditor reference. */
  function SepaFields(e: Entry): seq<Field>
  {
    var d := e.details;
    OptionalField(60, d.endToEndId) + OptionalField(61, d.mandateId)
      + OptionalField(62, d.creditorOtherId) + OptionalField(63, d.creditorRef)
  }

  /** The sub-fields of an entry in insertion order (which is also the order PHP's `foreach` visits them in). */
  function Fields(e: Entry): seq<Field>
  {
    HeadFields(e)
    + RemittanceFields(e.details.unstructured.GetOr(""))
    + CounterpartyFields(e)
    + NameFields(CounterpartyName(e))
    + SepaFields(e)
  }

  // ---------------------------------------------------------------------
  // An independent description of the sub-fields, code by code

  function Range(lo: nat, hi: nat): seq<nat>
    decreases hi - lo
  {
    if lo >= hi then [] else [lo] + Range(lo + 1, hi)
  }

  /** Every code a `:86:` field can carry, in the order they appear. */
  function FieldOrder(): seq<nat>
  {
    [0, 10] + Range(20, 30) + [30, 31] + [32, 33] + [60, 61, 62, 63]
  }

  function Cut27(element: Option<string>): Option<string>
  {
    match element
    case None => None
    case Some(v) => Some(Truncate(v, 27))
  }

  /**
   * The text of sub-field `code`, or `None` when the entry has no such
   * sub-field. Remittance piece `k` is the 27 bytes from byte `27 * k`;
   * the counterparty's bank code and account number are bytes 5-12 and
   * 13-22 of its IBAN, and exist only for a German IBAN; `?33` exists only
   * for a name longer than 27 bytes. The booking text and the counterparty's
   * IBAN and name are chosen here on their own, element by element.
   */
  function Expected(e: Entry, code: nat): Option<string>
  {
    var d := e.details;
    var remittance := d.unstructured.GetOr("");
    var name :=
      match (d.debtorName, d.creditorName)
      case (Some(n), _) => n
      case (None, Some(n)) => n
      case (None, None) => "";
    var bookingText := match e.additionalInfo case Some(t) => t case None => DefaultBookingText;
    if code == 0 then Some(Truncate(bookingText, 24))
    else if code == 10 then Cut27(d.paymentInfoId)
    else if 20 <= code < 30 then
      var start := (code - 20) * 27;
      if start < |remittance| then Some(Substr(remittance, start, 27)) else None
    else if code == 30 || code == 31 then
      var counterparty := if d.debtorIban.Some? then d.debtorIban else d.creditorIban;
      match counterparty
      case None => None
      case Some(iban) =>
        var s := StripSpaces(iban);
        if !IsGermanIban(s) then None
        else if code == 30 then Some(s[4..12])
        else Some(s[12..22])
    else if code == 32 then (if name == "" then None else Some(Truncate(name, 27)))
    else if code == 33 then (if |name| > 27 then Some(Substr(name, 27, 27)) else None)
    else if code == 60 then Cut27(d.endToEndId)
    else if code == 61 then Cut27(d.mandateId)
    else if code == 62 then Cut27(d.creditorOtherId)
    else if code == 63 then Cut27(d.creditorRef)
    else None
  }

  /** The codes of `codes` whose sub-field exists, with their texts, in the order of `codes`. */
  function Present(e: Entry, codes: seq<nat>): seq<Field>
  {
    if codes == [] then []
    else
      (match Expected(e, codes[0])
       case None => []
       case Some(v) => [Field(codes[0], v)])
      + Present(e, codes[1..])
  }

  lemma {:induction false} PresentAppend(e: Entry, a: seq<nat>, b: seq<nat>)
    ensures Present(e, a + b) == Present(e, a) + Present(e, b)
    decreases |a|
  {
    if a != [] {
      assert (a + b)[1..] == a[1..] + b;
      PresentAppend(e, a[1..], b);
    } else {
      assert a + b == b;
    }
  }

  lemma {:induction false} RemittancePresent(e: Entry, j: nat)
    requires j <= 10
    ensures var fs := RemittanceFields(e.details.unstructured.GetOr(""));
      Present(e, Range(20 + j, 30)) == fs[Min(j, |fs|)..]
    decreases 10 - j
  {
    var text := e.details.unstructured.GetOr("");
    var fs := RemittanceFields(text);
    if j < 10 {
      assert Range(20 + j, 30) == [20 + j] + Range(20 + j + 1, 30);
      assert Range(20 + j, 30)[1..] == Range(20 + j + 1, 30);
      RemittancePresent(e, j + 1);
      PresentCons(e, 20 + j, Range(20 + j + 1, 30));
      RemittanceOne(e, j);
      if j < |fs| {
        assert fs[j..] == [fs[j]] + fs[j + 1..];
      }
    }
  }

  /** Code `20 + j` is present exactly when the remittance text has a piece `j`, and then holds it. */
  lemma RemittanceOne(e: Entry, j: nat)
    requires j < 10
    ensures var fs := RemittanceFields(e.details.unstructured.GetOr(""));
      Present(e, [20 + j]) == if j < |fs| then [fs[j]] else []
  {
    var text := e.details.unstructured.GetOr("");
    assert [20 + j][1..] == [];
    assert Present(e, []) == [];
    ExpectedRemittance(e, j);
    if text != "" {
      ChunkCount(text, 27, j);
      OffsetIsProduct(j, 27);
      if j * 27 < |text| {
        ChunkAt(text, 27, j);
      }
    }
  }

  lemma ExpectedRemittance(e: Entry, j: nat)
    requires j < 10
    ensures var text := e.details.unstructured.GetOr("");
      Expected(e, 20 + j) == if j * 27 < |text| then Some(Substr(text, j * 27, 27)) else None
  {
  }

  lemma NamePresent(e: Entry)
    ensures Present(e, [32, 33]) == NameFields(CounterpartyName(e))
  {
    var name := CounterpartyName(e);
    assert [32, 33][1..] == [33];
    assert [33][1..] == [];
    assert Present(e, []) == [];
    assert Present(e, [33]) == (if |name| > 27 then [Field(33, Substr(name, 27, 27))] else []);
    if name != "" {
      ChunkCount(name, 27, 1);
      OffsetIsProduct(1, 27);
      if |name| > 27 {
        ChunkAt(name, 27, 1);
      }
    }
  }

  lemma CounterpartyPresent(e: Entry)
    ensures Present(e, [30, 31]) == CounterpartyFields(e)
  {
    assert [30, 31][1..] == [31];
    assert [31][1..] == [];
    assert Present(e, []) == [];
    match CounterpartyIban(e)
    case None =>
    case Some(iban) =>
      Decomposition(iban);
      var s := StripSpaces(iban);
      assert Present(e, [31]) == (if IsGermanIban(s) then [Field(31, s[12..22])] else []);
  }

  lemma HeadPresent(e: Entry)
    ensures Present(e, [0, 10]) == HeadFields(e)
  {
    assert [0, 10][1..] == [10] && [10][1..] == [];
    assert Present(e, []) == [];
  }

  lemma TailPresent(e: Entry)
    ensures Present(e, [60, 61, 62, 63]) == SepaFields(e)
  {
    var d := e.details;
    assert Present(e, [62, 63]) == OptionalField(62, d.creditorOtherId) + OptionalField(63, d.creditorRef) by {
      ExpectedSepa(e);
      OptionalPresent(e, 62, d.creditorOtherId);
      OptionalPresent(e, 63, d.creditorRef);
      PresentCons(e, 62, [63]);
      assert [62] + [63] == [62, 63];
    }
    assert Present(e, [60, 61]) == OptionalField(60, d.endToEndId) + OptionalField(61, d.mandateId) by {
      ExpectedSepa(e);
      OptionalPresent(e, 60, d.endToEndId);
      OptionalPresent(e, 61, d.mandateId);
      PresentCons(e, 60, [61]);
      assert [60] + [61] == [60, 61];
    }
    PresentAppend(e, [60, 61], [62, 63]);
    assert [60, 61] + [62, 63] == [60, 61, 62, 63];
  }

  lemma ExpectedSepa(e: Entry)
    ensures Expected(e, 60) == Cut27(e.details.endToEndId)
    ensures Expected(e, 61) == Cut27(e.details.mandateId)
    ensures Expected(e, 62) == Cut27(e.details.creditorOtherId)
    ensures Expected(e, 63) == Cut27(e.details.creditorRef)
  {
  }

  lemma PresentCons(e: Entry, code: nat, rest: seq<nat>)
    ensures Present(e, [code] + rest) == Present(e, [code]) + Present(e, rest)
  {
    PresentAppend(e, [code], rest);
  }

  lemma OptionalPresent(e: Entry, code: nat, element: Option<string>)
    requires Expected(e, code) == Cut27(element)
    ensures Present(e, [code]) == OptionalField(code, element)
  {
    assert [code][1..] == [];
    assert Present(e, []) == [];
  }

  /**
   * The sub-fields the converter collects are exactly the codes of
   * `FieldOrder()` that `Expected` says exist, in that order, each with the
   * text `Expected` gives it.
   */
  lemma {:induction false} FieldsAsExpected(e: Entry)
    ensures Fields(e) == Present(e, FieldOrder())
  {
    HeadPresent(e);
    RemittancePresent(e, 0);
    CounterpartyPresent(e);
    NamePresent(e);
    TailPresent(e);
    PresentParts(e, [0, 10], Range(20, 30), [30, 31], [32, 33], [60, 61, 62, 63]);
  }

  lemma PresentParts(e: Entry, c1: seq<nat>, c2: seq<nat>, c3: seq<nat>, c4: seq<nat>, c5: seq<nat>)
    ensures Present(e, c1 + c2 + c3 + c4 + c5)
      == Present(e, c1) + Present(e, c2) + Present(e, c3) + Present(e, c4) + Present(e, c5)
  {
    PresentAppend(e, c1 + c2 + c3 + c4, c5);
    PresentAppend(e, c1 + c2 + c3, c4);
    PresentAppend(e, c1 + c2, c3);
    PresentAppend(e, c1, c2);
  }

  predicate Increasing(fs: seq<Field>)
  {
    forall i, j :: 0 <= i < j < |fs| ==> fs[i].code < fs[j].code
  }

  /** Codes strictly increasing and in `[lo, hi)`, texts of at most 27 bytes. */
  predicate Within(fs: seq<Field>, lo: nat, hi: nat)
  {
    && Increasing(fs)
    && forall i :: 0 <= i < |fs| ==> lo <= fs[i].code < hi && |fs[i].value| <= 27
  }

  lemma WithinJoin(a: seq<Field>, b: seq<Field>, lo: nat, mid: nat, mid': nat, hi: nat)
    requires Within(a, lo, mid) && Within(b, mid', hi) && lo <= mid <= mid' <= hi
    ensures Within(a + b, lo, hi)
  {
    var ab := a + b;
    assert forall i :: |a| <= i < |ab| ==> ab[i] == b[i - |a|];
    assert forall i :: 0 <= i < |a| ==> ab[i] == a[i];
  }

  lemma RemittanceWithin(text: string)
    ensures Within(RemittanceFields(text), 20, 30)
  {
    if text != "" {
      var pieces := Chunks(text, 27);
      var rf := RemittanceFields(text);
      assert forall i :: 0 <= i < |rf| ==> rf[i] == Field(20 + i, pieces[i]);
    }
  }

  lemma NameWithin(name: string)
    ensures Within(NameFields(name), 32, 34)
  {
  }

  lemma OptionalWithin(code: nat, element: Option<string>)
    ensures Within(OptionalField(code, element), code, code + 1)
  {
  }

  lemma CounterpartyWithin(e: Entry)
    ensures Within(CounterpartyFields(e), 30, 32)
  {
  }

  lemma HeadWithin(e: Entry)
    ensures Within(HeadFields(e), 0, 11)
  {
  }

  lemma SepaWithin(e: Entry)
    ensures Within(SepaFields(e), 60, 64)
  {
    var d := e.details;
    OptionalWithin(60, d.endToEndId);
    OptionalWithin(61, d.mandateId);
    OptionalWithin(62, d.creditorOtherId);
    OptionalWithin(63, d.creditorRef);
    WithinJoin(OptionalField(60, d.endToEndId), OptionalField(61, d.mandateId), 60, 61, 61, 62);
    var s2 := OptionalField(60, d.endToEndId) + OptionalField(61, d.mandateId);
    WithinJoin(s2, OptionalField(62, d.creditorOtherId), 60, 62, 62, 63);
    WithinJoin(s2 + OptionalField(62, d.creditorOtherId), OptionalField(63, d.creditorRef), 60, 63, 63, 64);
  }

  /** Codes are two-digit numbers in strictly increasing order, and every text fits its sub-field. */
  lemma {:induction false} FieldsShape(e: Entry)
    ensures var fs := Fields(e);
      && |fs| >= 1 && fs[0] == Field(0, Truncate(BookingText(e), 24))
      && Within(fs, 0, 64)
  {
    var f1 := HeadFields(e);
    var rf := RemittanceFields(e.details.unstructured.GetOr(""));
    HeadWithin(e);
    RemittanceWithin(e.details.unstructured.GetOr(""));
    WithinJoin(f1, rf, 0, 11, 20, 30);
    CounterpartyWithin(e);
    WithinJoin(f1 + rf, CounterpartyFields(e), 0, 30, 30, 32);
    var f3 := f1 + rf + CounterpartyFields(e);
    NameWithin(CounterpartyName(e));
    WithinJoin(f3, NameFields(CounterpartyName(e)), 0, 32, 32, 34);
    SepaWithin(e);
    WithinJoin(f3 + NameFields(CounterpartyName(e)), SepaFields(e), 0, 34, 60, 64);
  }

  // ---------------------------------------------------------------------
  // Packing the sub-field texts into lines

  /** The text of one sub-field: `?`, the two-digit code and the text; the first one is preceded by the code. */
  function FieldText(gvc: string, first: bool, f: Field): string
    requires f.code < 100
  {
    (if first then gvc + "?" else "?") + TwoDigits(f.code) + f.value
  }

  function FieldTexts(gvc: string, fs: seq<Field>): seq<string>
    requires forall i :: 0 <= i < |fs| ==> fs[i].code < 100
  {
    seq(|fs|, i requires 0 <= i < |fs| => FieldText(gvc, i == 0, fs[i]))
  }

  /**
   * The packing loop from the current line onwards: a text that would make
   * the line longer than 65 bytes closes the line and opens the next one;
   * otherwise it is appended. The last line is kept unless it is the bare
   * tag.
   */
  function PackFrom(line: string, texts: seq<string>): seq<string>
    decreases |texts|
  {
    if texts == [] then (if line == Tag then [] else [line])
    else if |line + texts[0]| > MaxLine then [line] + PackFrom(texts[0], texts[1..])
    else PackFrom(line + texts[0], texts[1..])
  }

  function Pack(texts: seq<string>): seq<string>
  {
    PackFrom(Tag, texts)
  }

  /** The texts that make up each line, in the order `PackFrom` places them. */
  function GroupsFrom(group: seq<string>, line: string, texts: seq<string>): seq<seq<string>>
    decreases |texts|
  {
    if texts == [] then [group]
    else if |line + texts[0]| > MaxLine then [group] + GroupsFrom([texts[0]], texts[0], texts[1..])
    else GroupsFrom(group + [texts[0]], line + texts[0], texts[1..])
  }

  function Groups(texts: seq<string>): seq<seq<string>>
  {
    GroupsFrom([], Tag, texts)
  }

  function Flatten(gs: seq<seq<string>>): seq<string>
  {
    if gs == [] then [] else gs[0] + Flatten(gs[1..])
  }

  /** A continuation text: it starts with "?". */
  predicate IsContinuation(t: string)
  {
    t != "" && t[0] == '?'
  }

  lemma ConcatSingle(t: string)
    ensures Concat([t]) == t
  {
    assert [t][1..] == [];
  }

  /**
   * Lines `ls` laid out from the text groups `gs`, starting from a line made
   * of `lead` (the tag, or nothing) and the texts of `group`: the groups
   * hold the texts `all` in order, each line is its group's texts (the
   * first one after `lead`), no line is longer than 65 bytes, every line
   * after the first starts with "?", and each line is closed only because
   * the first text of the next one did not fit.
   */
  predicate LaidOut(lead: string, group: seq<string>, line: string, all: seq<string>, ls: seq<string>, gs: seq<seq<string>>)
  {
    && |ls| == |gs| >= 1
    && Flatten(gs) == all
    && line <= ls[0] && group <= gs[0]
    && ls[0] == lead + Concat(gs[0])
    && (forall k :: 1 <= k < |gs| ==> gs[k] != [] && ls[k] == Concat(gs[k]) && IsContinuation(ls[k]))
    && (forall k :: 0 <= k < |ls| ==> |ls[k]| <= MaxLine)
    && (forall k :: 0 <= k < |ls| - 1 ==> |ls[k]| + |gs[k + 1][0]| > MaxLine)
  }

  /** What `PackFromLayout` demands of the current line and the texts still to place. */
  predicate PackInput(lead: string, group: seq<string>, line: string, texts: seq<string>)
  {
    && line == lead + Concat(group) && |line| <= MaxLine && line != Tag
    && (lead == Tag || (lead == "" && line != "" && line[0] == '?'))
    && forall i :: 0 <= i < |texts| ==> IsContinuation(texts[i]) && |texts[i]| <= MaxLine
  }

  /** The layout `PackFrom` produces. */
  lemma {:induction false} PackFromLayout(lead: string, group: seq<string>, line: string, texts: seq<string>)
    requires PackInput(lead, group, line, texts)
    ensures LaidOut(lead, group, line, group + texts, PackFrom(line, texts), GroupsFrom(group, line, texts))
    decreases |texts|
  {
    if texts == [] {
      assert Flatten([group]) == group + Flatten([]);
    } else {
      var t := texts[0];
      var rest := texts[1..];
      assert texts == [t] + rest;
      ConcatSingle(t);
      if |line + t| > MaxLine {
        assert PackInput("", [t], t, rest);
        PackFromLayout("", [t], t, rest);
        assert PackFrom(line, texts) == [line] + PackFrom(t, rest);
        assert GroupsFrom(group, line, texts) == [group] + GroupsFrom([t], t, rest);
        BreakStep(lead, group, line, t, rest, PackFrom(t, rest), GroupsFrom([t], t, rest));
      } else {
        ConcatAppend(group, [t]);
        assert line + t != Tag by {
          if lead == Tag { assert |line + t| > |Tag|; } else { assert (line + t)[0] == '?'; }
        }
        assert PackInput(lead, group + [t], line + t, rest);
        PackFromLayout(lead, group + [t], line + t, rest);
        assert PackFrom(line, texts) == PackFrom(line + t, rest);
        assert GroupsFrom(group, line, texts) == GroupsFrom(group + [t], line + t, rest);
        ExtendStep(lead, group, line, t, rest, PackFrom(line + t, rest), GroupsFrom(group + [t], line + t, rest));
      }
    }
  }

  /** A text `t` that fits stays on the current line. */
  lemma ExtendStep(lead: string, group: seq<string>, line: string, t: string, rest: seq<string>, ls: seq<string>, gs: seq<seq<string>>)
    requires LaidOut(lead, group + [t], line + t, (group + [t]) + rest, ls, gs)
    ensures LaidOut(lead, group, line, group + ([t] + rest), ls, gs)
  {
    assert (group + [t]) + rest == group + ([t] + rest);
    assert line <= line + t;
    assert group <= group + [t];
  }

  /** A text `t` that does not fit closes the current line; the lines from `t` on follow it. */
  lemma BreakStep(lead: string, group: seq<string>, line: string, t: string, rest: seq<string>, ls: seq<string>, gs: seq<seq<string>>)
    requires LaidOut("", [t], t, [t] + rest, ls, gs)
    requires line == lead + Concat(group) && |line| <= MaxLine && |line + t| > MaxLine && IsContinuation(t)
    ensures LaidOut(lead, group, line, group + ([t] + rest), [line] + ls, [group] + gs)
  {
    var ls' := [line] + ls;
    var gs' := [group] + gs;
    assert gs'[1..] == gs;
    assert Flatten(gs') == group + Flatten(gs);
    assert gs[0][0] == t;
    assert IsContinuation(ls[0]) by { assert t <= ls[0]; }
    forall k | 1 <= k < |gs'|
      ensures gs'[k] != [] && ls'[k] == Concat(gs'[k]) && IsContinuation(ls'[k])
    {
      assert gs'[k] == gs[k - 1] && ls'[k] == ls[k - 1];
    }
    forall k | 0 <= k < |ls'|
      ensures |ls'[k]| <= MaxLine
    {
      if k > 0 { assert ls'[k] == ls[k - 1]; }
    }
    forall k | 0 <= k < |ls'| - 1
      ensures |ls'[k]| + |gs'[k + 1][0]| > MaxLine
    {
      if k > 0 { assert ls'[k] == ls[k - 1] && gs'[k + 1] == gs[k]; }
    }
  }

  /** Removing the line breaks gives back the tag followed by every text: nothing is lost or reordered. */
  lemma {:induction false} PackFromKeepsText(line: string, texts: seq<string>)
    requires line != Tag
    requires forall i :: 0 <= i < |texts| ==> IsContinuation(texts[i])
    ensures Concat(PackFrom(line, texts)) == line + Concat(texts)
    decreases |texts|
  {
    if texts == [] {
      ConcatSingle(line);
    } else {
      var t := texts[0];
      assert Concat(texts) == t + Concat(texts[1..]);
      if |line + t| > MaxLine {
        assert t != Tag;
        PackFromKeepsText(t, texts[1..]);
        assert ([line] + PackFrom(t, texts[1..]))[1..] == PackFrom(t, texts[1..]);
      } else {
        assert line + t != Tag by {
          if t[0] != Tag[0] {
            if |line + t| == |Tag| { assert (line + t)[|line|] == t[0]; assert Tag[|line|] != '?'; }
          }
        }
        PackFromKeepsText(line + t, texts[1..]);
      }
    }
  }

  /**
   * Lines `ls` made of the text groups `gs`: the first line is the tag and
   * its group, every other line is its (non-empty) group and starts with
   * "?", no line is longer than 65 bytes, and each line is closed only
   * because the first text of the next one did not fit.
   */
  predicate GreedyLines(ls: seq<string>, gs: seq<seq<string>>)
  {
    && |ls| == |gs| >= 1
    && ls[0] == Tag + Concat(gs[0])
    && (forall k :: 1 <= k < |gs| ==> gs[k] != [] && ls[k] == Concat(gs[k]) && IsContinuation(ls[k]))
    && (forall k :: 0 <= k < |ls| ==> |ls[k]| <= MaxLine)
    && (forall k :: 0 <= k < |ls| - 1 ==> |ls[k]| + |gs[k + 1][0]| > MaxLine)
  }

  /**
   * The packing as a whole, for a first text that fits after the tag and
   * continuation texts of at most 65 bytes: the first line is the tag
   * followed by the first text and (perhaps) more; the lines hold all texts
   * in order with nothing added; the grouping is greedy and every line fits.
   */
  lemma {:induction false} PackLayout(texts: seq<string>)
    requires |texts| >= 1 && texts[0] != "" && |Tag + texts[0]| <= MaxLine
    requires forall i :: 1 <= i < |texts| ==> IsContinuation(texts[i]) && |texts[i]| <= MaxLine
    ensures GreedyLines(Pack(texts), Groups(texts))
    ensures Flatten(Groups(texts)) == texts
    ensures Concat(Pack(texts)) == Tag + Concat(texts)
    ensures Tag + texts[0] <= Pack(texts)[0]
  {
    var t := texts[0];
    var rest := texts[1..];
    assert forall i :: 0 <= i < |rest| ==> rest[i] == texts[i + 1];
    assert Pack(texts) == PackFrom(Tag + t, rest);
    assert Groups(texts) == GroupsFrom([] + [t], Tag + t, rest);
    assert [] + [t] == [t];
    ConcatSingle(t);
    assert Tag + t != Tag by { assert |Tag + t| > |Tag|; }
    assert PackInput(Tag, [t], Tag + t, rest);
    PackFromLayout(Tag, [t], Tag + t, rest);
    PackFromKeepsText(Tag + t, rest);
    assert texts == [t] + rest;
    assert Concat(texts) == t + Concat(rest);
  }

  // ---------------------------------------------------------------------
  // The `:86:` field

  function PurposeTexts(e: Entry): seq<string>
  {
    FieldsShape(e);
    FieldTexts(ExtractGvc(e.code), Fields(e))
  }

  /** The lines of the `:86:` field. */
  function PurposeLines(e: Entry): seq<string>
  {
    Pack(PurposeTexts(e))
  }

  /** The `:86:` field: its lines joined by CRLF. */
  function PurposeField(e: Entry): string
  {
    Join(PurposeLines(e), CRLF)
  }

  /**
   * The `:86:` lines of every entry: the first starts with the tag, the
   * transaction-type code and `?00` followed by the booking text; the texts
   * of the sub-fields (as `Expected` describes them) follow one another
   * with nothing lost; every line has at most 65 bytes; only the first line
   * carries the tag, every other one starts with "?"; and a line is closed
   * only when the next sub-field would not fit.
   */
  lemma {:induction false} PurposeLayout(e: Entry)
    ensures |PurposeTexts(e)| == |Fields(e)|
    ensures GreedyLines(PurposeLines(e), Groups(PurposeTexts(e)))
    ensures Flatten(Groups(PurposeTexts(e))) == PurposeTexts(e)
    ensures Concat(PurposeLines(e)) == Tag + Concat(PurposeTexts(e))
    ensures Tag + ExtractGvc(e.code) + "?00" + Truncate(BookingText(e), 24) <= PurposeLines(e)[0]
  {
    FieldsShape(e);
    TextsLayout(ExtractGvc(e.code), Fields(e));
  }

  lemma TextsLayout(gvc: string, fs: seq<Field>)
    requires |gvc| == 3 && |fs| >= 1 && fs[0].code == 0 && |fs[0].value| <= 24 && Within(fs, 0, 64)
    ensures var texts := FieldTexts(gvc, fs);
      && |texts| == |fs|
      && GreedyLines(Pack(texts), Groups(texts))
      && Flatten(Groups(texts)) == texts
      && Concat(Pack(texts)) == Tag + Concat(texts)
      && Tag + gvc + "?00" + fs[0].value <= Pack(texts)[0]
  {
    var texts := FieldTexts(gvc, fs);
    TextsShape(gvc, fs);
    PackLayout(texts);
    assert Tag + gvc + "?00" + fs[0].value == Tag + texts[0];
  }

  lemma TextsShape(gvc: string, fs: seq<Field>)
    requires |gvc| == 3 && |fs| >= 1 && fs[0].code == 0 && |fs[0].value| <= 24 && Within(fs, 0, 64)
    ensures var texts := FieldTexts(gvc, fs);
      && |texts| == |fs| && texts[0] == gvc + "?00" + fs[0].value
      && texts[0] != "" && |Tag + texts[0]| <= MaxLine
      && forall i :: 1 <= i < |texts| ==> IsContinuation(texts[i]) && |texts[i]| <= MaxLine
  {
    var texts := FieldTexts(gvc, fs);
    assert TwoDigits(0) == "00";
    assert texts[0] == gvc + "?" + "00" + fs[0].value;
    assert forall i :: 1 <= i < |texts| ==> texts[i] == "?" + TwoDigits(fs[i].code) + fs[i].value;
  }

  // ---------------------------------------------------------------------
  // The converter's own procedure

  /** The field insertion of `formatPurpose`, in the converter's order and under its guards. */
  method CollectFields(e: Entry) returns (fields: seq<Field>)
    ensures fields == Fields(e)
  {
    fields := [];
    var bookingText := DefaultBookingText;
    if e.additionalInfo.Some? {
      bookingText := e.additionalInfo.value;
    }
    fields := fields + [Field(0, Truncate(bookingText, 24))];
    if e.details.paymentInfoId.Some? {
      fields := fields + [Field(10, Truncate(e.details.paymentInfoId.value, 27))];
    }
    assert fields == HeadFields(e);
    fields := AddRemittance(e, fields);
    fields := AddCounterparty(e, fields);
    fields := AddName(e, fields);
    fields := AddSepa(e, fields);
  }

  /** `?20`-`?29`: one field per 27-byte piece of `RmtInf/Ustrd`, at most ten. */
  method AddRemittance(e: Entry, fields: seq<Field>) returns (fields': seq<Field>)
    ensures fields' == fields + RemittanceFields(e.details.unstructured.GetOr(""))
  {
    fields' := fields;
    var remittance := "";
    if e.details.unstructured.Some? {
      remittance := e.details.unstructured.value;
    }
    if remittance != "" {
      var pieces := Chunks(remittance, 27);
      var i := 0;
      while i < Min(|pieces|, 10)
        invariant 0 <= i <= Min(|pieces|, 10)
        invariant fields' == fields + RemittanceFields(remittance)[..i]
      {
        fields' := fields' + [Field(20 + i, pieces[i])];
        i := i + 1;
      }
    }
  }

  /** `?30` and `?31`: the debtor's IBAN is looked at first, the creditor's only when the debtor has none. */
  method AddCounterparty(e: Entry, fields: seq<Field>) returns (fields': seq<Field>)
    ensures fields' == fields + CounterpartyFields(e)
  {
    var d := e.details;
    fields' := fields;
    var bankCode := "";
    if d.debtorIban.Some? {
      bankCode := BankCode(d.debtorIban.value);
    } else if d.creditorIban.Some? {
      bankCode := BankCode(d.creditorIban.value);
    }
    if bankCode != "" {
      fields' := fields' + [Field(30, bankCode)];
    }
    var account := "";
    if d.debtorIban.Some? {
      account := AccountNumber(d.debtorIban.value);
    } else if d.creditorIban.Some? {
      account := AccountNumber(d.creditorIban.value);
    }
    if account != "" {
      fields' := fields' + [Field(31, account)];
    }
  }

  /** `?32` and `?33`: the counterparty's name in at most two 27-byte pieces. */
  method AddName(e: Entry, fields: seq<Field>) returns (fields': seq<Field>)
    ensures fields' == fields + NameFields(CounterpartyName(e))
  {
    fields' := fields;
    var name := "";
    if e.details.debtorName.Some? {
      name := e.details.debtorName.value;
    } else if e.details.creditorName.Some? {
      name := e.details.creditorName.value;
    }
    if name != "" {
      var nameLines := Chunks(name, 27);
      fields' := fields' + [Field(32, nameLines[0])];
      if |nameLines| > 1 {
        fields' := fields' + [Field(33, nameLines[1])];
      }
    }
  }

  /** `?60`-`?63`, each present exactly when its element is. */
  method AddSepa(e: Entry, fields: seq<Field>) returns (fields': seq<Field>)
    ensures fields' == fields + SepaFields(e)
  {
    var d := e.details;
    fields' := fields;
    if d.endToEndId.Some? {
      fields' := fields' + [Field(60, Truncate(d.endToEndId.value, 27))];
    }
    if d.mandateId.Some? {
      fields' := fields' + [Field(61, Truncate(d.mandateId.value, 27))];
    }
    if d.creditorOtherId.Some? {
      fields' := fields' + [Field(62, Truncate(d.creditorOtherId.value, 27))];
    }
    if d.creditorRef.Some? {
      fields' := fields' + [Field(63, Truncate(d.creditorRef.value, 27))];
    }
  }

  /** The packing loop of `formatPurpose`. */
  method PackFields(gvc: string, fields: seq<Field>) returns (result: seq<string>)
    requires forall i :: 0 <= i < |fields| ==> fields[i].code < 100
    ensures result == Pack(FieldTexts(gvc, fields))
  {
    ghost var texts := FieldTexts(gvc, fields);
    result := [];
    var currentLine := Tag;
    var firstField := true;
    var i := 0;
    while i < |fields|
      invariant 0 <= i <= |fields|
      invariant firstField <==> i == 0
      invariant result + PackFrom(currentLine, texts[i..]) == Pack(texts)
    {
      var fieldText := (if firstField then gvc + "?" else "?") + TwoDigits(fields[i].code) + fields[i].value;
      assert fieldText == texts[i];
      assert texts[i..][1..] == texts[i + 1..];
      if |currentLine + fieldText| > MaxLine {
        result := result + [currentLine];
        currentLine := fieldText;
      } else {
        currentLine := currentLine + fieldText;
      }
      firstField := false;
      i := i + 1;
    }
    if currentLine != Tag {
      result := result + [currentLine];
    }
  }

  /** `formatPurpose`: the `:86:` field of an entry. */
  method FormatPurpose(e: Entry) returns (r: string)
    ensures r == PurposeField(e)
  {
    var gvc := ExtractGvc(e.code);
    var fields := CollectFields(e);
    FieldsShape(e);
    var lines := PackFields(gvc, fields);
    r := Join(lines, CRLF);
  }
}
