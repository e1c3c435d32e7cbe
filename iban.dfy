/**
 * German bank code (BLZ) and account number cut out of an IBAN by position.
 * A German IBAN reads `DEpp bbbb bbbb cccc cccc cc`: country, two check
 * digits, the 8-byte bank code, the 10-byte account number.
 */
module Iban {
  import opened Text

  /** A space-free IBAN that has the German layout: 22 bytes, starting with "DE". */
  predicate IsGermanIban(s: string)
  {
    |s| == 22 && s[..2] == "DE"
  }

  /** `extractBLZFromIBAN`: bytes 5 to 12 of a German IBAN, "" for any other input. */
  function BankCode(iban: string): (r: string)
    ensures |r| == 8 || r == ""
    ensures ' ' !in r
  {
    var s := StripSpaces(iban);
    if IsGermanIban(s) then s[4..12] else ""
  }

  /** `extractKontoFromIBAN`: bytes 13 to 22 of a German IBAN, "" for any other input. */
  function AccountNumber(iban: string): (r: string)
    ensures |r| == 10 || r == ""
    ensures ' ' !in r
  {
    var s := StripSpaces(iban);
    if IsGermanIban(s) then s[12..22] else ""
  }

  /**
   * `extractBLZKontoFromIBAN`, the `:25:` value: "bankcode/account" for a
   * German IBAN, otherwise the IBAN with its spaces removed.
   */
  function AccountField(iban: string): (r: string)
    ensures ' ' !in r
  {
    var s := StripSpaces(iban);
    if !IsGermanIban(s) then s else s[4..12] + "/" + s[12..22]
  }

  /**
   * The decomposition, both ways: a German IBAN is its first four bytes
   * followed by the bank code and the account number, and the `:25:` value
   * joins those two with "/"; any other IBAN has neither part, and its
   * `:25:` value is the space-stripped IBAN.
   */
  lemma Decomposition(iban: string)
    ensures var s := StripSpaces(iban);
      if IsGermanIban(s) then
        && |BankCode(iban)| == 8 && |AccountNumber(iban)| == 10
        && s == s[..4] + BankCode(iban) + AccountNumber(iban)
        && AccountField(iban) == BankCode(iban) + "/" + AccountNumber(iban)
      else
        BankCode(iban) == "" && AccountNumber(iban) == "" && AccountField(iban) == s
  {
    var s := StripSpaces(iban);
    if IsGermanIban(s) {
      assert s == s[..4] + s[4..12] + s[12..22];
    }
  }

  /** The bank code is non-empty exactly when the account number is, exactly for German IBANs. */
  lemma PartsPresentTogether(iban: string)
    ensures BankCode(iban) != "" <==> IsGermanIban(StripSpaces(iban))
    ensures AccountNumber(iban) != "" <==> IsGermanIban(StripSpaces(iban))
  {
  }

  /** Spaces in the IBAN do not change any of the three results. */
  lemma SpacesIgnored(iban: string)
    ensures BankCode(StripSpaces(iban)) == BankCode(iban)
    ensures AccountNumber(StripSpaces(iban)) == AccountNumber(iban)
    ensures AccountField(StripSpaces(iban)) == AccountField(iban)
  {
    assert StripSpaces(StripSpaces(iban)) == StripSpaces(iban);
  }

}
