/**
 * `convertStatement` and `convert`: the lines of one MT940 statement and
 * the document made of all statements.
 */
module Converter {
  import opened Text
  import opened Camt
  import opened Iban
  import opened Formatters
  import opened Purpose

  /**
   * The `:28C:` value: `ElctrncSeqNb`, except that PHP's `?:` replaces the
   * texts that are false in PHP, "" and "0", by "1".
   */
  function SequenceNumber(raw: string): (r: string)
    ensures r != "" && r != "0"
    ensures raw == "" || raw == "0" ==> r == "1"
    ensures raw != "" && raw != "0" ==> r == raw
  {
    if raw == "" || raw == "0" then "1" else raw
  }

  /** `xs[0], ys[0], xs[1], ys[1], ...`: each line of `xs` followed by its partner in `ys`. */
  function Pairs(xs: seq<string>, ys: seq<string>): (r: seq<string>)
    requires |xs| == |ys|
    ensures |r| == 2 * |xs|
  {
    seq(2 * |xs|, k requires 0 <= k < 2 * |xs| => if k % 2 == 0 then xs[k / 2] else ys[k / 2])
  }

  /** Lines `2 i` and `2 i + 1` are the `i`-th pair. */
  lemma PairsAt(xs: seq<string>, ys: seq<string>, i: nat)
    requires |xs| == |ys| && i < |xs|
    ensures Pairs(xs, ys)[2 * i] == xs[i] && Pairs(xs, ys)[2 * i + 1] == ys[i]
  {
    assert (2 * i) / 2 == i && (2 * i + 1) / 2 == i && (2 * i + 1) % 2 == 1;
  }

  /** One more pair extends the interleaving of two prefixes. */
  lemma PairsSnoc(xs: seq<string>, ys: seq<string>, i: nat)
    requires |xs| == |ys| && i < |xs|
    ensures Pairs(xs[..i + 1], ys[..i + 1]) == Pairs(xs[..i], ys[..i]) + [xs[i], ys[i]]
  {
    var longer := Pairs(xs[..i + 1], ys[..i + 1]);
    var shorter := Pairs(xs[..i], ys[..i]) + [xs[i], ys[i]];
    forall k | 0 <= k < 2 * i + 2
      ensures longer[k] == shorter[k]
    {
      if k < 2 * i {
        assert k / 2 < i;
      } else {
        assert k / 2 == i;
      }
    }
  }

  /**
   * Small sequence identities, stated over plain sequences so that the
   * loops below can use them without bringing the lines' definitions into
   * the proof.
   */
  lemma AppendTwo(xs: seq<string>, x: string, y: string)
    ensures xs + [x] + [y] == xs + [x, y]
  {
  }

  lemma AppendAssoc(xs: seq<string>, ys: seq<string>, zs: seq<string>)
    ensures xs + ys + zs == xs + (ys + zs)
  {
  }

  lemma TakeSnoc(xs: seq<string>, i: nat)
    requires i < |xs|
    ensures xs[..i + 1] == xs[..i] + [xs[i]]
  {
  }

  lemma TakeAll(xs: seq<string>)
    ensures xs[..|xs|] == xs
  {
  }

  /** The `:61:` line of every entry. */
  function TransactionLines(es: seq<Entry>): (r: seq<string>)
    requires forall i :: 0 <= i < |es| ==> WellFormedEntry(es[i])
    ensures |r| == |es|
  {
    seq(|es|, i requires 0 <= i < |es| && WellFormedEntry(es[i]) => FormatTransaction(es[i]))
  }

  /** The `:86:` field of every entry. */
  function PurposeFields(es: seq<Entry>): (r: seq<string>)
    ensures |r| == |es|
  {
    seq(|es|, i requires 0 <= i < |es| => PurposeField(es[i]))
  }

  /** The `:61:` line and the `:86:` field of every entry, entry by entry. */
  function EntryLines(es: seq<Entry>): (r: seq<string>)
    requires forall i :: 0 <= i < |es| ==> WellFormedEntry(es[i])
    ensures |r| == 2 * |es|
  {
    Pairs(TransactionLines(es), PurposeFields(es))
  }

  /** The lines of one statement, tag by tag. */
  function StatementLines(s: Statement): seq<string>
    requires WellFormedStatement(s)
  {
    Header(s)
    + EntryLines(s.entries)
    + [FormatBalance(":62F:", s.balances[1])]
  }

  /** One statement: its lines joined by CRLF. */
  function StatementText(s: Statement): string
    requires WellFormedStatement(s)
  {
    Join(StatementLines(s), CRLF)
  }

  /** The tag line `k` of a statement with `n` entries starts with. */
  function LineTag(n: nat, k: nat): string
  {
    if k == 0 then ":20:"
    else if k == 1 then ":25:"
    else if k == 2 then ":28C:"
    else if k == 3 then ":60F:"
    else if k < 4 + 2 * n then (if k % 2 == 0 then ":61:" else ":86:")
    else ":62F:"
  }

  lemma PurposeFieldTag(e: Entry)
    ensures Tag <= PurposeField(e)
  {
    PurposeLayout(e);
  }

  /** Where the parts of `h + Pairs(xs, ys) + [c]` sit. */
  lemma {:induction false} Assembled(h: seq<string>, xs: seq<string>, ys: seq<string>, c: string)
    requires |xs| == |ys|
    ensures var ls := h + Pairs(xs, ys) + [c];
      && |ls| == |h| + 2 * |xs| + 1
      && (forall k :: 0 <= k < |h| ==> ls[k] == h[k])
      && (forall i :: 0 <= i < |xs| ==> ls[|h| + 2 * i] == xs[i] && ls[|h| + 2 * i + 1] == ys[i])
      && ls[|h| + 2 * |xs|] == c
  {
    var ls := h + Pairs(xs, ys) + [c];
    forall i | 0 <= i < |xs|
      ensures ls[|h| + 2 * i] == xs[i] && ls[|h| + 2 * i + 1] == ys[i]
    {
      PairsAt(xs, ys, i);
    }
  }

  /**
   * Every line of `h + Pairs(xs, ys) + [c]` starts with the tag `LineTag`
   * gives its position, when each part starts with its own tag.
   */
  lemma {:induction false} AssembledTags(h: seq<string>, xs: seq<string>, ys: seq<string>, c: string)
    requires |h| == 4 && |xs| == |ys|
    requires ":20:" <= h[0] && ":25:" <= h[1] && ":28C:" <= h[2] && ":60F:" <= h[3]
    requires forall i :: 0 <= i < |xs| ==> ":61:" <= xs[i]
    requires forall i :: 0 <= i < |ys| ==> Tag <= ys[i]
    requires ":62F:" <= c
    ensures var ls := h + Pairs(xs, ys) + [c];
      forall k :: 0 <= k < |ls| ==> LineTag(|xs|, k) <= ls[k]
  {
    var ls := h + Pairs(xs, ys) + [c];
    forall k | 0 <= k < |ls|
      ensures LineTag(|xs|, k) <= ls[k]
    {
      if k < 4 {
        assert ls[k] == h[k];
      } else if k < 4 + 2 * |xs| {
        assert ls[k] == Pairs(xs, ys)[k - 4];
        assert (k - 4) % 2 == k % 2;
      } else {
        assert ls[k] == c;
      }
    }
  }

  /** The four header lines of a statement. */
  function Header(s: Statement): seq<string>
    requires WellFormedStatement(s)
  {
    [ ":20:" + s.id,
      ":25:" + AccountField(s.iban),
      ":28C:" + SequenceNumber(s.sequenceNumber),
      FormatBalance(":60F:", s.balances[0]) ]
  }

  /**
   * A statement opens with the three header lines and the opening balance
   * and closes with the closing balance; between them are two lines per
   * entry.
   */
  lemma StatementFrame(s: Statement)
    requires WellFormedStatement(s)
    ensures var ls := StatementLines(s); var n := |s.entries|;
      && |ls| == 5 + 2 * n
      && ls[0] == ":20:" + s.id
      && ls[1] == ":25:" + AccountField(s.iban)
      && ls[2] == ":28C:" + SequenceNumber(s.sequenceNumber)
      && ls[3] == FormatBalance(":60F:", s.balances[0])
      && ls[4 + 2 * n] == FormatBalance(":62F:", s.balances[1])
  {
    Assembled(Header(s), TransactionLines(s.entries), PurposeFields(s.entries), FormatBalance(":62F:", s.balances[1]));
  }

  /** Where the `i`-th pair of `h + Pairs(xs, ys) + [c]` sits, for a header of four lines. */
  lemma AssembledAt(h: seq<string>, xs: seq<string>, ys: seq<string>, c: string, i: nat)
    requires |h| == 4 && |xs| == |ys| && i < |xs|
    ensures var ls := h + Pairs(xs, ys) + [c];
      |ls| == 5 + 2 * |xs| && ls[4 + 2 * i] == xs[i] && ls[5 + 2 * i] == ys[i]
  {
    var ls := h + Pairs(xs, ys) + [c];
    PairsAt(xs, ys, i);
    assert ls[4 + 2 * i] == Pairs(xs, ys)[2 * i] && ls[5 + 2 * i] == Pairs(xs, ys)[2 * i + 1];
  }

  /** Entry `i` gives line `4 + 2 i`, its `:61:` line. */
  lemma StatementTransaction(s: Statement, i: nat)
    requires WellFormedStatement(s) && i < |s.entries|
    ensures var ls := StatementLines(s);
      |ls| == 5 + 2 * |s.entries| && ls[4 + 2 * i] == FormatTransaction(s.entries[i])
  {
    AssembledAt(Header(s), TransactionLines(s.entries), PurposeFields(s.entries), FormatBalance(":62F:", s.balances[1]), i);
  }

  /** Entry `i` gives line `5 + 2 i`, its `:86:` field. */
  lemma StatementPurpose(s: Statement, i: nat)
    requires WellFormedStatement(s) && i < |s.entries|
    ensures var ls := StatementLines(s);
      |ls| == 5 + 2 * |s.entries| && ls[5 + 2 * i] == PurposeField(s.entries[i])
  {
    AssembledAt(Header(s), TransactionLines(s.entries), PurposeFields(s.entries), FormatBalance(":62F:", s.balances[1]), i);
  }

  /** Between the balances, each entry in document order gives its `:61:` line followed by its `:86:` field. */
  lemma StatementEntries(s: Statement)
    requires WellFormedStatement(s)
    ensures var ls := StatementLines(s);
      && |ls| == 5 + 2 * |s.entries|
      && forall i :: 0 <= i < |s.entries| ==>
           ls[4 + 2 * i] == FormatTransaction(s.entries[i]) && ls[5 + 2 * i] == PurposeField(s.entries[i])
  {
    StatementFrame(s);
    forall i | 0 <= i < |s.entries|
      ensures StatementLines(s)[4 + 2 * i] == FormatTransaction(s.entries[i])
      ensures StatementLines(s)[5 + 2 * i] == PurposeField(s.entries[i])
    {
      StatementTransaction(s, i);
      StatementPurpose(s, i);
    }
  }

  /** Each line of a statement starts with its tag. */
  lemma StatementTags(s: Statement)
    requires WellFormedStatement(s)
    ensures var ls := StatementLines(s);
      && |ls| == 5 + 2 * |s.entries|
      && forall k :: 0 <= k < |ls| ==> LineTag(|s.entries|, k) <= ls[k]
  {
    var ts := TransactionLines(s.entries);
    var ps := PurposeFields(s.entries);
    forall i | 0 <= i < |ps|
      ensures Tag <= ps[i]
    {
      PurposeFieldTag(s.entries[i]);
    }
    AssembledTags(Header(s), ts, ps, FormatBalance(":62F:", s.balances[1]));
  }

  /** The loop of `convertStatement`: a `:61:` line and a `:86:` field per entry, appended in order. */
  method AppendEntries(es: seq<Entry>, lines: seq<string>) returns (lines': seq<string>)
    requires forall i :: 0 <= i < |es| ==> WellFormedEntry(es[i])
    ensures lines' == lines + EntryLines(es)
  {
    ghost var ts := TransactionLines(es);
    ghost var ps := PurposeFields(es);
    lines' := lines;
    var i := 0;
    while i < |es|
      invariant 0 <= i <= |es|
      invariant lines' == lines + Pairs(ts[..i], ps[..i])
    {
      var entry := es[i];
      PairsSnoc(ts, ps, i);
      ghost var before := lines';
      var transaction := FormatTransaction(entry);
      lines' := lines' + [transaction];
      var purpose := FormatPurpose(entry);
      lines' := lines' + [purpose];
      AppendTwo(before, transaction, purpose);
      assert transaction == ts[i] && purpose == ps[i];
      AppendAssoc(lines, Pairs(ts[..i], ps[..i]), [ts[i], ps[i]]);
      i := i + 1;
    }
    TakeAll(ts);
    TakeAll(ps);
  }

  /** `convertStatement`: the lines in the converter's order, joined by CRLF. */
  method ConvertStatement(s: Statement) returns (r: string)
    requires WellFormedStatement(s)
    ensures r == StatementText(s)
  {
    var lines: seq<string> := [];
    var reference := ":20:" + s.id;
    lines := lines + [reference];
    var blzKonto := AccountField(s.iban);
    var account := ":25:" + blzKonto;
    lines := lines + [account];
    var stmtNr := SequenceNumber(s.sequenceNumber);
    var number := ":28C:" + stmtNr;
    lines := lines + [number];
    var opening := FormatBalance(":60F:", s.balances[0]);
    lines := lines + [opening];
    assert lines == [reference, account, number, opening];
    lines := AppendEntries(s.entries, lines);
    var closing := FormatBalance(":62F:", s.balances[1]);
    lines := lines + [closing];
    assert lines == StatementLines(s);
    r := Join(lines, CRLF);
  }

  // ---------------------------------------------------------------------
  // The document

  const StatementSeparator := "\r\n-\r\n"

  /** The statements joined by "CRLF - CRLF", the whole closed by "CRLF -". */
  function Document(blocks: seq<string>): string
  {
    Join(blocks, StatementSeparator) + "\r\n-"
  }

  function StatementTexts(stmts: seq<Statement>): (r: seq<string>)
    requires forall i :: 0 <= i < |stmts| ==> WellFormedStatement(stmts[i])
    ensures |r| == |stmts|
  {
    seq(|stmts|, i requires 0 <= i < |stmts| => StatementText(stmts[i]))
  }

  /** What `convert` produces for the statements of a document, in document order. */
  function ConvertedDocument(stmts: seq<Statement>): string
    requires forall i :: 0 <= i < |stmts| ==> WellFormedStatement(stmts[i])
  {
    Document(StatementTexts(stmts))
  }

  /** A document without statements is the terminator alone. */
  lemma EmptyDocument()
    ensures ConvertedDocument([]) == "\r\n-"
  {
    assert StatementTexts([]) == [];
  }

  /**
   * With one more CRLF at its end, a document is every statement followed
   * by "CRLF - CRLF": each statement, the last one included, is closed by
   * a line holding only "-".
   */
  lemma DocumentTerminated(blocks: seq<string>)
    requires |blocks| >= 1
    ensures Document(blocks) + CRLF
      == Concat(seq(|blocks|, i requires 0 <= i < |blocks| => blocks[i] + StatementSeparator))
    ensures blocks[0] <= Document(blocks)
  {
    JoinTerminated(blocks, StatementSeparator);
    assert Document(blocks) + CRLF == Join(blocks, StatementSeparator) + StatementSeparator;
  }

  /** `convert`: every statement converted in document order, then joined. */
  method Convert(stmts: seq<Statement>) returns (r: string)
    requires forall i :: 0 <= i < |stmts| ==> WellFormedStatement(stmts[i])
    ensures r == ConvertedDocument(stmts)
  {
    var mt940: seq<string> := [];
    var i := 0;
    while i < |stmts|
      invariant 0 <= i <= |stmts|
      invariant mt940 == StatementTexts(stmts)[..i]
    {
      var block := ConvertStatement(stmts[i]);
      TakeSnoc(StatementTexts(stmts), i);
      mt940 := mt940 + [block];
      i := i + 1;
    }
    TakeAll(StatementTexts(stmts));
    r := Join(mt940, StatementSeparator) + "\r\n-";
  }
}
