/**
 * The string operations of Python's `str` that the client relies on:
 * `sep.join`, `split`, `rstrip`/`lstrip` of one character, `str(int)` and
 * the zero padding of `strftime` fields. Each is given with a partner that
 * pins down its meaning: a splitter for the joiner, a parser for the
 * decimal printers, and characterising postconditions for the strips.
 */
module Text {
  import opened Wrappers

  // ---------------------------------------------------------------------
  // join / split

  /** `sep.join(words)`. */
  function Join(words: seq<string>, sep: string): string
  {
    if |words| == 0 then ""
    else if |words| == 1 then words[0]
    else words[0] + sep + Join(words[1..], sep)
  }

  /** `s.split(c)` for a one-character separator: every maximal run between separators, empty runs included. */
  function Split(s: string, c: char): (parts: seq<string>)
    ensures |parts| > 0
  {
    if |s| == 0 then [""]
    else
      var rest := Split(s[1..], c);
      if s[0] == c then [""] + rest
      else [[s[0]] + rest[0]] + rest[1..]
  }

  /** No part of a split holds the separator. */
  lemma {:induction false} SplitParts(s: string, c: char)
    ensures forall i :: 0 <= i < |Split(s, c)| ==> c !in Split(s, c)[i]
  {
    if |s| > 0 {
      SplitParts(s[1..], c);
    }
  }

  /** A word with no separator in it is glued to the first part of whatever follows. */
  lemma {:induction false} SplitPrefix(w: string, tail: string, c: char)
    requires c !in w
    ensures Split(w + tail, c) == [w + Split(tail, c)[0]] + Split(tail, c)[1..]
  {
    if |w| > 0 {
      assert (w + tail)[1..] == w[1..] + tail;
      SplitPrefix(w[1..], tail, c);
      assert [w[0]] + (w[1..] + Split(tail, c)[0]) == w + Split(tail, c)[0];
    } else {
      var parts := Split(tail, c);
      assert w + tail == tail;
      assert w + parts[0] == parts[0];
      assert [parts[0]] + parts[1..] == parts;
    }
  }

  /** Splitting the single-character join of separator-free words gives back the words. */
  lemma {:induction false} SplitJoin(words: seq<string>, c: char)
    requires |words| > 0
    requires forall i :: 0 <= i < |words| ==> c !in words[i]
    ensures Split(Join(words, [c]), c) == words
  {
    if |words| == 1 {
      SplitPrefix(words[0], "", c);
      assert words[0] + "" == words[0];
    } else {
      var tail := Join(words[1..], [c]);
      SplitJoin(words[1..], c);
      assert words[0] + [c] + tail == words[0] + ([c] + tail);
      SplitPrefix(words[0], [c] + tail, c);
      assert ([c] + tail)[1..] == tail;
      assert Split([c] + tail, c) == [""] + words[1..];
      assert words[0] + "" == words[0];
      assert [words[0]] + words[1..] == words;
    }
  }

  // ---------------------------------------------------------------------
  // rstrip / lstrip of one character

  /** `s.rstrip(c)`: `s` without every trailing `c`. */
  function RStrip(s: string, c: char): (r: string)
    ensures |r| <= |s| && r == s[..|r|]
    ensures |r| == 0 || r[|r| - 1] != c
    ensures forall i :: |r| <= i < |s| ==> s[i] == c
  {
    if |s| > 0 && s[|s| - 1] == c then RStrip(s[..|s| - 1], c) else s
  }

  /** `s.lstrip(c)`: `s` without every leading `c`. */
  function LStrip(s: string, c: char): (r: string)
    ensures |r| <= |s| && r == s[|s| - |r|..]
    ensures |r| == 0 || r[0] != c
    ensures forall i :: 0 <= i < |s| - |r| ==> s[i] == c
  {
    if |s| > 0 && s[0] == c then LStrip(s[1..], c) else s
  }

  // ---------------------------------------------------------------------
  // decimal numerals: `str(n)` for an int, and its inverse

  predicate IsDigit(ch: char) { '0' <= ch <= '9' }

  predicate AllDigits(s: string) { forall i :: 0 <= i < |s| ==> IsDigit(s[i]) }

  function DigitChar(d: nat): (ch: char)
    requires d < 10
    ensures IsDigit(ch)
  {
    ('0' as int + d) as char
  }

  function DigitValue(ch: char): nat
    requires IsDigit(ch)
  {
    (ch as int - '0' as int) as nat
  }

  /** The value of a string of decimal digits, most significant first; the empty string is 0. */
  function DecimalValue(s: string): nat
    requires AllDigits(s)
  {
    if |s| == 0 then 0 else DecimalValue(s[..|s| - 1]) * 10 + DigitValue(s[|s| - 1])
  }

  /** `str(n)` for a natural number: the shortest decimal numeral of `n`. */
  function NatToDecimal(n: nat): (s: string)
    ensures |s| > 0 && AllDigits(s)
    ensures s[0] == '0' ==> n == 0 && |s| == 1
  {
    if n < 10 then [DigitChar(n)] else NatToDecimal(n / 10) + [DigitChar(n % 10)]
  }

  /** `str(i)`: a minus sign before the numeral of a negative number. */
  function IntToDecimal(i: int): string
  {
    if i < 0 then "-" + NatToDecimal(-i) else NatToDecimal(i)
  }

  /** Reads back an optionally signed decimal numeral; anything else is `None`. */
  function ParseDecimal(s: string): Option<int>
  {
    if |s| > 1 && s[0] == '-' && AllDigits(s[1..]) then Some(-(DecimalValue(s[1..]) as int))
    else if |s| > 0 && AllDigits(s) then Some(DecimalValue(s))
    else None
  }

  lemma {:induction false} NatToDecimalValue(n: nat)
    ensures DecimalValue(NatToDecimal(n)) == n
  {
    if n >= 10 {
      var s := NatToDecimal(n);
      NatToDecimalValue(n / 10);
      assert s[..|s| - 1] == NatToDecimal(n / 10);
    }
  }

  /** `str` on integers is read back exactly by `ParseDecimal`. */
  lemma IntToDecimalRoundTrip(i: int)
    ensures ParseDecimal(IntToDecimal(i)) == Some(i)
  {
    NatToDecimalValue(if i < 0 then -i else i);
    if i < 0 {
      assert ("-" + NatToDecimal(-i))[1..] == NatToDecimal(-i);
    }
  }

  // ---------------------------------------------------------------------
  // zero-padded fields, as `strftime` prints `%Y`, `%m`, `%d`, ...

  function Pow10(k: nat): (p: nat)
    ensures p >= 1
  {
    if k == 0 then 1 else 10 * Pow10(k - 1)
  }

  /**
   * `n` printed in exactly `width` digits, most significant first: its low
   * `width` decimal digits, with leading zeros when `n` is shorter.
   */
  function ZeroPad(n: nat, width: nat): (s: string)
    ensures |s| == width
  {
    if width == 0 then "" else ZeroPad(n / 10, width - 1) + [DigitChar(n % 10)]
  }

  /** Euclidean division is unique: a quotient and a remainder in range are `/` and `%`. */
  lemma DivModUnique(n: int, m: int, q: int, r: int)
    requires m > 0 && n == m * q + r && 0 <= r < m
    ensures n / m == q && n % m == r
  {
    var k := q - n / m;
    assert m * k == n % m - r;
    assert k >= 1 ==> m * k >= m;
    assert k <= -1 ==> m * k <= -m;
  }

  /** `n` as its last digit below the digits above it, those split again at `p`. */
  lemma SplitLastDigit(n: nat, p: nat)
    requires p > 0
    ensures n == (10 * p) * ((n / 10) / p) + (((n / 10) % p) * 10 + n % 10)
    ensures 0 <= ((n / 10) % p) * 10 + n % 10 < 10 * p
  {
    var q, r := n / 10, n % 10;
    var a, b := q / p, q % p;
    assert n == 10 * q + r;
    assert q == p * a + b;
    assert 10 * q == (10 * p) * a + 10 * b;
    assert b <= p - 1;
    assert 10 * b <= 10 * p - 10;
  }

  /** A zero-padded field reads back as the number it prints, reduced to its width. */
  lemma {:induction false} ZeroPadValue(n: nat, width: nat)
    ensures AllDigits(ZeroPad(n, width))
    ensures DecimalValue(ZeroPad(n, width)) == n % Pow10(width)
  {
    if width > 0 {
      var s := ZeroPad(n, width);
      var p := Pow10(width - 1);
      assert s[..|s| - 1] == ZeroPad(n / 10, width - 1);
      ZeroPadValue(n / 10, width - 1);
      assert AllDigits(s) by {
        forall i | 0 <= i < |s| ensures IsDigit(s[i]) {
          if i < |s| - 1 {
            assert s[i] == ZeroPad(n / 10, width - 1)[i];
          }
        }
      }
      var q, r := n / 10, n % 10;
      assert DigitValue(s[|s| - 1]) == r;
      assert DecimalValue(s) == (q % p) * 10 + r;
      SplitLastDigit(n, p);
      DivModUnique(n, 10 * p, q / p, (q % p) * 10 + r);
    }
  }
}
