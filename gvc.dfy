/**
 * The GVC (Geschäftsvorfallcode) lookup: a static table from the ISO 20022
 * bank transaction code triple "Domain|Family|SubFamily" to a 3-digit
 * legacy German transaction-type code, with "999" for every other key.
 */
module Gvc {
  import opened Wrappers
  import opened Text
  import opened Camt

  predicate IsCode(s: string)
  {
    |s| == 3 && IsDigits(s)
  }

  /** A 3-digit transaction-type code. */
  type Code = s: string | IsCode(s) witness "999"

  const Unknown: Code := "999"

  // The table is the source's array literal, in source order, cut into
  // parts of at most five entries. In a PHP array literal with a repeated
  // key the entry listed last wins: `LastCode` looks for the last entry of
  // a list, and `TableCode` asks the later parts first.

  /** The code of the last entry of `es` listed for `key`, if any. */
  function LastCode(es: seq<(string, Code)>, key: string): Option<Code>
  {
    if es == [] then None
    else if es[|es| - 1].0 == key then Some(es[|es| - 1].1)
    else LastCode(es[..|es| - 1], key)
  }

  /** A code `LastCode` finds is one an entry lists for the key. */
  lemma {:induction false} LastCodeListed(es: seq<(string, Code)>, key: string)
    requires LastCode(es, key).Some?
    ensures exists i :: 0 <= i < |es| && es[i] == (key, LastCode(es, key).value)
  {
    if es[|es| - 1].0 != key {
      LastCodeListed(es[..|es| - 1], key);
      var i :| 0 <= i < |es| - 1 && es[..|es| - 1][i] == (key, LastCode(es, key).value);
      assert es[i] == es[..|es| - 1][i];
    }
  }

  /** A key that `es` does not list gets no code. */
  lemma {:induction false} LastCodeUnlisted(es: seq<(string, Code)>, key: string)
    requires forall i :: 0 <= i < |es| ==> es[i].0 != key
    ensures LastCode(es, key).None?
  {
    if es != [] {
      LastCodeUnlisted(es[..|es| - 1], key);
    }
  }

  /** In `a + b` the entries of `b` come later, so they win. */
  lemma {:induction false} LastCodeAppend(a: seq<(string, Code)>, b: seq<(string, Code)>, key: string)
    ensures LastCode(a + b, key) == if LastCode(b, key).Some? then LastCode(b, key) else LastCode(a, key)
    decreases |b|
  {
    if b == [] {
      assert a + b == a;
    } else {
      assert (a + b)[|a + b| - 1] == b[|b| - 1];
      assert (a + b)[..|a + b| - 1] == a + b[..|b| - 1];
      LastCodeAppend(a, b[..|b| - 1], key);
    }
  }

  /** The entries at class/CAMT053ToMT940Converter.php lines 272-280, in source order. */
  function Part1Entries(): seq<(string, Code)>
  {
    [
      ("PMNT|CCRD|POSC", "006"),
      ("PMNT|ICDT|STDO", "008"),
      ("PMNT|RCDT|STDO", "052"),
      ("PMNT|CNTR|CDPT", "082"),
      ("PMNT|CNTR|CWDL", "083")
    ]
  }

  function Part1(key: string): Option<Code>
  {
    LastCode(Part1Entries(), key)
  }

  /** The entries at class/CAMT053ToMT940Converter.php lines 282-290, in source order. */
  function Part2Entries(): seq<(string, Code)>
  {
    [
      ("PMNT|RDDT|OODD", "084"),
      ("PMNT|ICDT|SDVA", "087"),
      ("PMNT|RCDT|SDVA", "088"),
      ("PMNT|ICHQ|CCHQ", "101"),
      ("PMNT|ICHQ|ORCQ", "102")
    ]
  }

  function Part2(key: string): Option<Code>
  {
    LastCode(Part2Entries(), key)
  }

  /** The entries at class/CAMT053ToMT940Converter.php lines 293-299, in source order. */
  function Part3Entries(): seq<(string, Code)>
  {
    [
      ("PMNT|RDDT|BBDD", "104"),
      ("PMNT|RDDT|ESDD", "105"),
      ("PMNT|CCRD|POSD", "106"),
      ("PMNT|CCRD|CWDL", "106"),
      ("PMNT|CCRD|OTHR", "106")
    ]
  }

  function Part3(key: string): Option<Code>
  {
    LastCode(Part3Entries(), key)
  }

  /** The entries at class/CAMT053ToMT940Converter.php lines 300-309, in source order. */
  function Part4Entries(): seq<(string, Code)>
  {
    [
      ("PMNT|CCRD|SMRT", "106"),
      ("PMNT|MCRD|CHRG", "106"),
      ("PMNT|IDDT|UPDD", "108"),
      ("PMNT|RDDT|UPDD", "109"),
      ("PMNT|MCRD|UPCT", "110")
    ]
  }

  function Part4(key: string): Option<Code>
  {
    LastCode(Part4Entries(), key)
  }

  /** The entries at class/CAMT053ToMT940Converter.php lines 311-323, in source order. */
  function Part5Entries(): seq<(string, Code)>
  {
    [
      ("PMNT|ICHQ|UPCQ", "111"),
      ("PMNT|ICHQ|ESCT", "112"),
      ("PMNT|ICDT|ESCT", "116"),
      ("PMNT|IRCT|ESCT", "118"),
      ("PMNT|RCDT|SALA", "153")
    ]
  }

  function Part5(key: string): Option<Code>
  {
    LastCode(Part5Entries(), key)
  }

  /** The entries at class/CAMT053ToMT940Converter.php lines 328-340, in source order. */
  function Part6Entries(): seq<(string, Code)>
  {
    [
      ("PMNT|RRCT|SALA", "157"),
      ("PMNT|ICDT|RRTN", "159"),
      ("PMNT|IRCT|RRTN", "160"),
      ("PMNT|RRCT|RRTN", "160"),
      ("PMNT|RCDT|ESCT", "166")
    ]
  }

  function Part6(key: string): Option<Code>
  {
    LastCode(Part6Entries(), key)
  }

  /** The entries at class/CAMT053ToMT940Converter.php lines 343-355, in source order. */
  function Part7Entries(): seq<(string, Code)>
  {
    [
      ("PMNT|RRCT|ESCT", "168"),
      ("PMNT|RCHQ|URCQ", "170"),
      ("PMNT|IDDT|ESDD", "171"),
      ("PMNT|IDDT|BBDD", "174"),
      ("PMNT|CCRD|RIMB", "182")
    ]
  }

  function Part7(key: string): Option<Code>
  {
    LastCode(Part7Entries(), key)
  }

  /** The entries at class/CAMT053ToMT940Converter.php lines 357-377, in source order. */
  function Part8Entries(): seq<(string, Code)>
  {
    [
      ("PMNT|RCHQ|UPCQ", "183"),
      ("PMNT|IDDT|RCDD", "193"),
      ("PMNT|MCRD|POSP", "198"),
      ("PMNT|MCRD|DAJT", "199"),
      ("PMNT|ICDT|XBCT", "201")
    ]
  }

  function Part8(key: string): Option<Code>
  {
    LastCode(Part8Entries(), key)
  }

  /** The entries at class/CAMT053ToMT940Converter.php lines 378-385, in source order. */
  function Part9Entries(): seq<(string, Code)>
  {
    [
      ("PMNT|RCDT|XBCT", "202"),
      ("PMNT|ICDT|XRTN", "202"),
      ("TRAD|GUAR|OTHR", "205"),
      ("PMNT|ICDT|XBST", "212"),
      ("PMNT|DRFT|STAM", "216")
    ]
  }

  function Part9(key: string): Option<Code>
  {
    LastCode(Part9Entries(), key)
  }

  /** The entries at class/CAMT053ToMT940Converter.php lines 387-395, in source order. */
  function Part10Entries(): seq<(string, Code)>
  {
    [
      ("PMNT|DRFT|STLR", "217"),
      ("PMNT|CNTR|FCDP", "224"),
      ("SECU|CUST|DVCA", "302"),
      ("SECU|SETT|TRAD", "303"),
      ("DERV|OTHR|OTHR", "311")
    ]
  }

  function Part10(key: string): Option<Code>
  {
    LastCode(Part10Entries(), key)
  }

  /** The entries at class/CAMT053ToMT940Converter.php lines 397-408, in source order. */
  function Part11Entries(): seq<(string, Code)>
  {
    [
      ("SECU|CUST|CHRG", "321"),
      ("FORX|SPOT|OTHR", "411"),
      ("FORX|FWRD|OTHR", "413"),
      ("PMET|SPOT|OTHR", "423"),
      ("ACMT|OPCL|ACCC", "805")
    ]
  }

  function Part11(key: string): Option<Code>
  {
    LastCode(Part11Entries(), key)
  }

  /** The entries at class/CAMT053ToMT940Converter.php lines 412-417, in source order. */
  function Part12Entries(): seq<(string, Code)>
  {
    [
      ("ACMT|MDOP|CHRG", "808"),
      ("ACMT|MCOP|CHRG", "808"),
      ("ACMT|MDOP|COMM", "809"),
      ("ACMT|MCOP|COMM", "809"),
      ("TRAD|MCOP|COMM", "809")
    ]
  }

  function Part12(key: string): Option<Code>
  {
    LastCode(Part12Entries(), key)
  }

  /** The entries at class/CAMT053ToMT940Converter.php lines 418-424, in source order. */
  function Part13Entries(): seq<(string, Code)>
  {
    [
      ("TRAD|MDOP|COMM", "809"),
      ("LDAS|MCOP|CHRG", "811"),
      ("LDAS|MDOP|CHRG", "811"),
      ("ACMT|MCOP|INTR", "814"),
      ("ACMT|MDOP|INTR", "814")
    ]
  }

  function Part13(key: string): Option<Code>
  {
    LastCode(Part13Entries(), key)
  }

  /** The entries at class/CAMT053ToMT940Converter.php lines 426-433, in source order. */
  function Part14Entries(): seq<(string, Code)>
  {
    [
      ("PMNT|MDOP|OTHR", "818"),
      ("PMNT|MCOP|OTHR", "819"),
      ("PMNT|RCDT|BOOK", "820"),
      ("PMNT|ICDT|BOOK", "820"),
      ("LDAS|FTDP|DPST", "823")
    ]
  }

  function Part14(key: string): Option<Code>
  {
    LastCode(Part14Entries(), key)
  }

  /** The entries at class/CAMT053ToMT940Converter.php lines 434-441, in source order. */
  function Part15Entries(): seq<(string, Code)>
  {
    [
      ("LDAS|FTDP|RPMT", "823"),
      ("LDAS|FTDP|RPMT", "829"),
      ("CAMT|CAPL|OTHR", "833"),
      ("CAMT|ACCB|ZABA", "833"),
      ("XTND|NTAV|NTAV", "835")
    ]
  }

  function Part15(key: string): Option<Code>
  {
    LastCode(Part15Entries(), key)
  }

  /** The entries at class/CAMT053ToMT940Converter.php lines 442-444, in source order. */
  function Part16Entries(): seq<(string, Code)>
  {
    [
      ("PMNT|OTHR|OTHR", "835"),
      ("ACMT|ACOP|PSTE", "899")
    ]
  }

  function Part16(key: string): Option<Code>
  {
    LastCode(Part16Entries(), key)
  }

  /** The code the table lists for `key`, if any. */
  function TableCode(key: string): Option<Code>
  {
    if Part16(key).Some? then Part16(key)
    else if Part15(key).Some? then Part15(key)
    else if Part14(key).Some? then Part14(key)
    else if Part13(key).Some? then Part13(key)
    else if Part12(key).Some? then Part12(key)
    else if Part11(key).Some? then Part11(key)
    else if Part10(key).Some? then Part10(key)
    else if Part9(key).Some? then Part9(key)
    else if Part8(key).Some? then Part8(key)
    else if Part7(key).Some? then Part7(key)
    else if Part6(key).Some? then Part6(key)
    else if Part5(key).Some? then Part5(key)
    else if Part4(key).Some? then Part4(key)
    else if Part3(key).Some? then Part3(key)
    else if Part2(key).Some? then Part2(key)
    else Part1(key)
  }

  /** The whole table, every entry in source order. */
  function Entries(): seq<(string, Code)>
  {
    Part1Entries() + Part2Entries() + Part3Entries() + Part4Entries()
    + Part5Entries() + Part6Entries() + Part7Entries() + Part8Entries()
    + Part9Entries() + Part10Entries() + Part11Entries() + Part12Entries()
    + Part13Entries() + Part14Entries() + Part15Entries() + Part16Entries()
  }

  /** Asking the parts from the last one back gives, for every key, the code of the last entry listed for it. */
  lemma {:induction false} TableAsListed(k: string)
    ensures TableCode(k) == LastCode(Entries(), k)
  {
    var p1 := Part1Entries();
    var p2 := p1 + Part2Entries();
    var p3 := p2 + Part3Entries();
    var p4 := p3 + Part4Entries();
    var p5 := p4 + Part5Entries();
    var p6 := p5 + Part6Entries();
    var p7 := p6 + Part7Entries();
    var p8 := p7 + Part8Entries();
    var p9 := p8 + Part9Entries();
    var p10 := p9 + Part10Entries();
    var p11 := p10 + Part11Entries();
    var p12 := p11 + Part12Entries();
    var p13 := p12 + Part13Entries();
    var p14 := p13 + Part14Entries();
    var p15 := p14 + Part15Entries();
    LastCodeAppend(p1, Part2Entries(), k);
    LastCodeAppend(p2, Part3Entries(), k);
    LastCodeAppend(p3, Part4Entries(), k);
    LastCodeAppend(p4, Part5Entries(), k);
    LastCodeAppend(p5, Part6Entries(), k);
    LastCodeAppend(p6, Part7Entries(), k);
    LastCodeAppend(p7, Part8Entries(), k);
    LastCodeAppend(p8, Part9Entries(), k);
    LastCodeAppend(p9, Part10Entries(), k);
    LastCodeAppend(p10, Part11Entries(), k);
    LastCodeAppend(p11, Part12Entries(), k);
    LastCodeAppend(p12, Part13Entries(), k);
    LastCodeAppend(p13, Part14Entries(), k);
    LastCodeAppend(p14, Part15Entries(), k);
    LastCodeAppend(p15, Part16Entries(), k);
  }

  /** The lookup key: the three parts separated by "|", absent parts as "". */
  function Key(domain: string, family: string, subFamily: string): string
  {
    domain + "|" + family + "|" + subFamily
  }

  /** `isset($mapping[$key]) ? $mapping[$key] : '999'`. */
  function LookupKey(key: string): Code
  {
    TableCode(key).GetOr(Unknown)
  }

  /**
   * `extractGVC`: the code for an entry's `BkTxCd/Domn` triple, which is
   * the code of the last table entry listed for its key, or "999".
   */
  function ExtractGvc(c: BankTxCode): (r: Code)
    ensures |r| == 3 && IsDigits(r)
    ensures r == LastCode(Entries(), Key(c.domain.GetOr(""), c.family.GetOr(""), c.subFamily.GetOr(""))).GetOr(Unknown)
  {
    var key := Key(c.domain.GetOr(""), c.family.GetOr(""), c.subFamily.GetOr(""));
    TableAsListed(key);
    LookupKey(key)
  }

  // ---------------------------------------------------------------------
  // Properties of the table

  /** Every key of the table is three 4-byte parts joined by "|", with no other "|". */
  predicate IsTripleKey(k: string)
  {
    |k| == 14 && forall i :: 0 <= i < 14 ==> (k[i] == '|' <==> i == 4 || i == 9)
  }

  lemma Part1Keys(k: string)
    requires Part1(k).Some?
    ensures IsTripleKey(k) && Part1(k).value != Unknown
  {
    LastCodeListed(Part1Entries(), k);
  }

  lemma Part2Keys(k: string)
    requires Part2(k).Some?
    ensures IsTripleKey(k) && Part2(k).value != Unknown
  {
    LastCodeListed(Part2Entries(), k);
  }

  lemma Part3Keys(k: string)
    requires Part3(k).Some?
    ensures IsTripleKey(k) && Part3(k).value != Unknown
  {
    LastCodeListed(Part3Entries(), k);
  }

  lemma Part4Keys(k: string)
    requires Part4(k).Some?
    ensures IsTripleKey(k) && Part4(k).value != Unknown
  {
    LastCodeListed(Part4Entries(), k);
  }

  lemma Part5Keys(k: string)
    requires Part5(k).Some?
    ensures IsTripleKey(k) && Part5(k).value != Unknown
  {
    LastCodeListed(Part5Entries(), k);
  }

  lemma Part6Keys(k: string)
    requires Part6(k).Some?
    ensures IsTripleKey(k) && Part6(k).value != Unknown
  {
    LastCodeListed(Part6Entries(), k);
  }

  lemma Part7Keys(k: string)
    requires Part7(k).Some?
    ensures IsTripleKey(k) && Part7(k).value != Unknown
  {
    LastCodeListed(Part7Entries(), k);
  }

  lemma Part8Keys(k: string)
    requires Part8(k).Some?
    ensures IsTripleKey(k) && Part8(k).value != Unknown
  {
    LastCodeListed(Part8Entries(), k);
  }

  lemma Part9Keys(k: string)
    requires Part9(k).Some?
    ensures IsTripleKey(k) && Part9(k).value != Unknown
  {
    LastCodeListed(Part9Entries(), k);
  }

  lemma Part10Keys(k: string)
    requires Part10(k).Some?
    ensures IsTripleKey(k) && Part10(k).value != Unknown
  {
    LastCodeListed(Part10Entries(), k);
  }

  lemma Part11Keys(k: string)
    requires Part11(k).Some?
    ensures IsTripleKey(k) && Part11(k).value != Unknown
  {
    LastCodeListed(Part11Entries(), k);
  }

  lemma Part12Keys(k: string)
    requires Part12(k).Some?
    ensures IsTripleKey(k) && Part12(k).value != Unknown
  {
    LastCodeListed(Part12Entries(), k);
  }

  lemma Part13Keys(k: string)
    requires Part13(k).Some?
    ensures IsTripleKey(k) && Part13(k).value != Unknown
  {
    LastCodeListed(Part13Entries(), k);
  }

  lemma Part14Keys(k: string)
    requires Part14(k).Some?
    ensures IsTripleKey(k) && Part14(k).value != Unknown
  {
    LastCodeListed(Part14Entries(), k);
  }

  lemma Part15Keys(k: string)
    requires Part15(k).Some?
    ensures IsTripleKey(k) && Part15(k).value != Unknown
  {
    LastCodeListed(Part15Entries(), k);
  }

  lemma Part16Keys(k: string)
    requires Part16(k).Some?
    ensures IsTripleKey(k) && Part16(k).value != Unknown
  {
    LastCodeListed(Part16Entries(), k);
  }

  /** Every key of the table is a triple key, and no entry has the code "999". */
  lemma {:induction false} TableKeys(k: string)
    requires TableCode(k).Some?
    ensures IsTripleKey(k) && TableCode(k).value != Unknown
  {
    if Part16(k).Some? { Part16Keys(k); }
    else if Part15(k).Some? { Part15Keys(k); }
    else if Part14(k).Some? { Part14Keys(k); }
    else if Part13(k).Some? { Part13Keys(k); }
    else if Part12(k).Some? { Part12Keys(k); }
    else if Part11(k).Some? { Part11Keys(k); }
    else if Part10(k).Some? { Part10Keys(k); }
    else if Part9(k).Some? { Part9Keys(k); }
    else if Part8(k).Some? { Part8Keys(k); }
    else if Part7(k).Some? { Part7Keys(k); }
    else if Part6(k).Some? { Part6Keys(k); }
    else if Part5(k).Some? { Part5Keys(k); }
    else if Part4(k).Some? { Part4Keys(k); }
    else if Part3(k).Some? { Part3Keys(k); }
    else if Part2(k).Some? { Part2Keys(k); }
    else { Part1Keys(k); }
  }

  /**
   * A key built from parts of other lengths is not in the table; in
   * particular an entry that lacks its domain, family or sub-family code
   * (the part is then "") gets the code "999".
   */
  lemma {:induction false} OnlyCompleteTriplesFound(domain: string, family: string, subFamily: string)
    requires TableCode(Key(domain, family, subFamily)).Some?
    ensures |domain| == 4 && |family| == 4 && |subFamily| == 4
  {
    var k := Key(domain, family, subFamily);
    TableKeys(k);
    assert k[|domain|] == '|';
    assert k[|domain| + 1 + |family|] == '|';
  }

  lemma IncompleteCodeIsUnknown(c: BankTxCode)
    requires c.domain.None? || c.family.None? || c.subFamily.None?
    ensures ExtractGvc(c) == Unknown
  {
    var k := Key(c.domain.GetOr(""), c.family.GetOr(""), c.subFamily.GetOr(""));
    if TableCode(k).Some? {
      OnlyCompleteTriplesFound(c.domain.GetOr(""), c.family.GetOr(""), c.subFamily.GetOr(""));
    }
  }

  /** The code is "999" exactly when the entry's key is not in the table. */
  lemma UnknownExactlyWhenUnlisted(c: BankTxCode)
    ensures var k := Key(c.domain.GetOr(""), c.family.GetOr(""), c.subFamily.GetOr(""));
      ExtractGvc(c) == Unknown <==> TableCode(k).None?
  {
    var k := Key(c.domain.GetOr(""), c.family.GetOr(""), c.subFamily.GetOr(""));
    if TableCode(k).Some? {
      TableKeys(k);
    }
  }

  /**
   * `extractGVC` against the table as listed: the code of the last entry
   * for the entry's key, and "999" when no entry lists that key.
   */
  lemma ExtractGvcAsListed(c: BankTxCode)
    ensures var k := Key(c.domain.GetOr(""), c.family.GetOr(""), c.subFamily.GetOr(""));
      && (LastCode(Entries(), k).Some? ==> ExtractGvc(c) == LastCode(Entries(), k).value)
      && ((forall i :: 0 <= i < |Entries()| ==> Entries()[i].0 != k) ==> ExtractGvc(c) == Unknown)
  {
    var k := Key(c.domain.GetOr(""), c.family.GetOr(""), c.subFamily.GetOr(""));
    TableAsListed(k);
    if forall i :: 0 <= i < |Entries()| ==> Entries()[i].0 != k {
      LastCodeUnlisted(Entries(), k);
    }
  }

  /** The key "LDAS|FTDP|RPMT" is listed twice (823, then 829); the later entry wins. */
  lemma RepeatedKeyTakesLaterCode()
    ensures ExtractGvc(BankTxCode(Some("LDAS"), Some("FTDP"), Some("RPMT"), None)) == "829"
  {
    var k := "LDAS|FTDP|RPMT";
    assert Key("LDAS", "FTDP", "RPMT") == k;
    LastCodeUnlisted(Part16Entries(), k);
    var p := Part15Entries();
    assert p == p[..2] + p[2..];
    LastCodeUnlisted(p[2..], k);
    LastCodeAppend(p[..2], p[2..], k);
  }
}
