/**
 * Byte strings and the PHP string built-ins the converter relies on.
 *
 * A `string` here stands for a PHP byte string: each `char` is one byte, so
 * `|s|` is `strlen`, and `substr`, `str_split` and `str_replace` cut bytes,
 * never characters.
 */
module Text {

  const CRLF := "\r\n"

  function Min(a: int, b: int): int
  {
    if a <= b then a else b
  }

  // ---------------------------------------------------------------------
  // Concatenation and implode

  /** All strings of `xs` glued together, in order. */
  function Concat(xs: seq<string>): string
  {
    if xs == [] then "" else xs[0] + Concat(xs[1..])
  }

  lemma {:induction false} ConcatAppend(xs: seq<string>, ys: seq<string>)
    ensures Concat(xs + ys) == Concat(xs) + Concat(ys)
    decreases |xs|
  {
    if xs == [] {
      assert xs + ys == ys;
    } else {
      assert (xs + ys)[1..] == xs[1..] + ys;
      ConcatAppend(xs[1..], ys);
    }
  }

  /**
   * PHP `implode(sep, xs)`: the strings of `xs` with `sep` between
   * neighbours. No strings give "", one string gives itself, and the first
   * string always opens the result.
   */
  function Join(xs: seq<string>, sep: string): (r: string)
    ensures xs == [] ==> r == ""
    ensures |xs| == 1 ==> r == xs[0]
    ensures |xs| >= 1 ==> xs[0] <= r
  {
    if |xs| == 0 then ""
    else if |xs| == 1 then xs[0]
    else xs[0] + sep + Join(xs[1..], sep)
  }

  /**
   * Joining and then adding one more separator is the same as terminating
   * every element by the separator.
   */
  lemma {:induction false} JoinTerminated(xs: seq<string>, sep: string)
    requires |xs| >= 1
    ensures Join(xs, sep) + sep == Concat(seq(|xs|, i requires 0 <= i < |xs| => xs[i] + sep))
    decreases |xs|
  {
    var ts := seq(|xs|, i requires 0 <= i < |xs| => xs[i] + sep);
    if |xs| == 1 {
      assert ts[1..] == [];
    } else {
      JoinTerminated(xs[1..], sep);
      var rest := seq(|xs| - 1, i requires 0 <= i < |xs| - 1 => xs[1..][i] + sep);
      assert ts[1..] == rest;
    }
  }

  // ---------------------------------------------------------------------
  // substr, str_split, str_replace

  /** The private helper `truncate($text, $length)`: the first `n` bytes of `s`, or all of `s` when it is shorter. */
  function Truncate(s: string, n: nat): (r: string)
    ensures r <= s
    ensures |r| == Min(|s|, n)
  {
    if |s| <= n then s else s[..n]
  }

  /** PHP `substr(s, start, n)` for a start inside `s`: at most `n` bytes from `start` on. */
  function Substr(s: string, start: nat, n: nat): (r: string)
    requires start <= |s|
    ensures |r| == Min(|s| - start, n)
  {
    s[start..Min(start + n, |s|)]
  }

  /**
   * PHP `str_split(s, n)`: `s` cut into consecutive pieces of `n` bytes, the
   * last one possibly shorter. The converter splits only non-empty texts;
   * for "" the model gives `[""]`, which is not relied on.
   */
  function Chunks(s: string, n: nat): (r: seq<string>)
    requires n > 0
    ensures |r| >= 1
    ensures forall i :: 0 <= i < |r| ==> |r[i]| <= n
    decreases |s|
  {
    if |s| <= n then [s] else [s[..n]] + Chunks(s[n..], n)
  }

  /**
   * The pieces of `str_split` glue back to `s`; all but the last have exactly
   * `n` bytes, none of a non-empty `s` is empty, and the first is the
   * `n`-byte prefix.
   */
  lemma {:induction false} ChunksSplit(s: string, n: nat)
    requires n > 0
    ensures var r := Chunks(s, n);
      && Concat(r) == s
      && (forall i :: 0 <= i < |r| - 1 ==> |r[i]| == n)
      && (s != "" ==> forall i :: 0 <= i < |r| ==> r[i] != "")
      && r[0] == Truncate(s, n)
    decreases |s|
  {
    var r := Chunks(s, n);
    if |s| > n {
      ChunksSplit(s[n..], n);
      assert r[1..] == Chunks(s[n..], n);
      assert s == s[..n] + s[n..];
    }
  }

  /** Where piece `k` of `str_split(s, n)` starts: `k * n`, counted out by additions. */
  function Offset(k: nat, n: nat): nat
  {
    if k == 0 then 0 else Offset(k - 1, n) + n
  }

  lemma {:induction false} OffsetIsProduct(k: nat, n: nat)
    ensures Offset(k, n) == k * n
  {
    if k > 0 {
      OffsetIsProduct(k - 1, n);
      assert (k - 1) * n + n == k * n;
    }
  }

  /** `str_split(s, n)` has a piece `k` exactly when byte `k * n` exists. */
  lemma {:induction false} ChunkCount(s: string, n: nat, k: nat)
    requires n > 0 && s != ""
    ensures k < |Chunks(s, n)| <==> Offset(k, n) < |s|
    decreases k
  {
    if k > 0 {
      OffsetFirst(k, n);
      if |s| > n {
        ChunkCount(s[n..], n, k - 1);
      }
    }
  }

  /** Piece `k` of `str_split(s, n)` holds the (at most) `n` bytes from byte `k * n` on. */
  lemma {:induction false} ChunkAt(s: string, n: nat, k: nat)
    requires n > 0 && s != "" && k < |Chunks(s, n)|
    ensures Offset(k, n) < |s|
    ensures Chunks(s, n)[k] == Substr(s, Offset(k, n), n)
    decreases k
  {
    ChunkCount(s, n, k);
    if k > 0 {
      OffsetFirst(k, n);
      ChunkTail(s, n, k);
      ChunkAt(s[n..], n, k - 1);
      SubstrShift(s, n, Offset(k - 1, n), n);
    }
  }

  /** Counting the first piece separately: `k * n == n + (k - 1) * n`. */
  lemma {:induction false} OffsetFirst(k: nat, n: nat)
    requires k > 0
    ensures Offset(k, n) == n + Offset(k - 1, n)
    decreases k
  {
    if k > 1 {
      OffsetFirst(k - 1, n);
    }
  }

  lemma ChunkTail(s: string, n: nat, k: nat)
    requires n > 0 && 0 < k < |Chunks(s, n)|
    ensures |s| > n && k - 1 < |Chunks(s[n..], n)|
    ensures Chunks(s, n)[k] == Chunks(s[n..], n)[k - 1]
  {
  }

  lemma SubstrShift(s: string, d: nat, start: nat, n: nat)
    requires d + start <= |s|
    ensures Substr(s[d..], start, n) == Substr(s, d + start, n)
  {
  }

  /** PHP `str_replace(' ', '', s)`: `s` with every space byte removed. */
  function StripSpaces(s: string): (r: string)
    ensures ' ' !in r
    ensures |r| <= |s|
    ensures ' ' !in s ==> r == s
  {
    if s == [] then []
    else
      var rest := StripSpaces(s[1..]);
      if s[0] == ' ' then rest else [s[0]] + rest
  }

  /** Removing the spaces keeps every other byte, as often as it occurs. */
  lemma {:induction false} StripSpacesKeepsOthers(s: string)
    ensures forall c :: c != ' ' ==> multiset(StripSpaces(s))[c] == multiset(s)[c]
  {
    if s != [] {
      StripSpacesKeepsOthers(s[1..]);
      assert s == [s[0]] + s[1..];
    }
  }

  /** A single byte is dropped exactly when it is a space. */
  lemma StripSpacesByte(c: char)
    ensures StripSpaces([c]) == if c == ' ' then [] else [c]
  {
    assert [c][1..] == [];
  }

  /**
   * Removing the spaces works piece by piece, so the bytes that are kept
   * stay in their order.
   */
  lemma {:induction false} StripSpacesAppend(a: string, b: string)
    ensures StripSpaces(a + b) == StripSpaces(a) + StripSpaces(b)
    decreases |a|
  {
    if a == [] {
      assert a + b == b;
    } else {
      assert (a + b)[0] == a[0] && (a + b)[1..] == a[1..] + b;
      StripSpacesAppend(a[1..], b);
    }
  }

  // ---------------------------------------------------------------------
  // Decimal digits

  predicate IsDigit(c: char)
  {
    '0' <= c <= '9'
  }

  predicate IsDigits(s: string)
  {
    forall i :: 0 <= i < |s| ==> IsDigit(s[i])
  }

  function DigitValue(c: char): nat
    requires IsDigit(c)
  {
    (c as int) - ('0' as int)
  }

  function DigitChar(d: nat): (c: char)
    requires d < 10
    ensures IsDigit(c) && DigitValue(c) == d
  {
    (('0' as int) + d) as char
  }

  function Pow10(k: nat): (p: nat)
    ensures p >= 1
  {
    if k == 0 then 1 else 10 * Pow10(k - 1)
  }

  /** The number a string of decimal digits denotes, most significant digit first. */
  function DecimalValue(s: string): nat
    requires IsDigits(s)
  {
    if s == [] then 0 else DecimalValue(s[..|s| - 1]) * 10 + DigitValue(s[|s| - 1])
  }

  lemma {:induction false} DecimalValueBound(s: string)
    requires IsDigits(s)
    ensures DecimalValue(s) < Pow10(|s|)
    decreases |s|
  {
    if s != [] {
      DecimalValueBound(s[..|s| - 1]);
    }
  }

  /** The value of two digit strings written one after the other. */
  lemma {:induction false} DecimalValueAppend(a: string, b: string)
    requires IsDigits(a) && IsDigits(b)
    ensures IsDigits(a + b)
    ensures DecimalValue(a + b) == DecimalValue(a) * Pow10(|b|) + DecimalValue(b)
    decreases |b|
  {
    if b == [] {
      assert a + b == a;
    } else {
      var b' := b[..|b| - 1];
      assert (a + b)[..|a + b| - 1] == a + b';
      DecimalValueAppend(a, b');
      Regroup(DecimalValue(a), Pow10(|b'|), DecimalValue(b'), DigitValue(b[|b| - 1]));
    }
  }

  lemma Regroup(x: nat, p: nat, y: nat, d: nat)
    ensures (x * p + y) * 10 + d == x * (10 * p) + (y * 10 + d)
  {
  }

  /** The canonical decimal text of `n`: no sign, no leading zero (apart from "0" itself). */
  function NatToDecimal(n: nat): (r: string)
    ensures |r| >= 1 && IsDigits(r)
    ensures DecimalValue(r) == n
    ensures |r| > 1 ==> r[0] != '0'
  {
    if n < 10 then
      [DigitChar(n)]
    else
      var front := NatToDecimal(n / 10);
      var r := front + [DigitChar(n % 10)];
      assert r[..|r| - 1] == front;
      r
  }

  /** Exactly two decimal digits for `n < 100`, zero-padded on the left (`str_pad($n, 2, '0', STR_PAD_LEFT)`). */
  function TwoDigits(n: nat): (r: string)
    requires n < 100
    ensures |r| == 2 && IsDigits(r)
    ensures DecimalValue(r) == n
  {
    var r := [DigitChar(n / 10), DigitChar(n % 10)];
    assert r[..1] == [r[0]] && r[..1][..0] == [];
    assert DecimalValue(r[..1]) == n / 10;
    r
  }
}
