/** Text helpers the statefulset code takes from Go's standard library:
    decimal formatting (strconv.Itoa / FormatInt), strings.Join, and the
    blank-separated word splitting a shell applies to a command line. */
module Strings {

  /** The decimal digit character for d. */
  function DigitChar(d: nat): (c: char)
    requires d < 10
    ensures '0' <= c <= '9'
    ensures c as int - '0' as int == d
  {
    ('0' as int + d) as char
  }

  predicate AllDigits(s: string) {
    forall i :: 0 <= i < |s| ==> '0' <= s[i] <= '9'
  }

  /** strconv.FormatInt(n, 10) for a non-negative n. */
  function Decimal(n: nat): (s: string)
    ensures |s| >= 1 && AllDigits(s)
    ensures |s| == 1 <==> n < 10
    ensures s[0] == '0' ==> n == 0
    decreases n
  {
    if n < 10 then [DigitChar(n)] else Decimal(n / 10) + [DigitChar(n % 10)]
  }

  /** The value of a string of decimal digits (the reading direction). */
  function DigitsValue(s: string): nat
    requires AllDigits(s)
    decreases |s|
  {
    if |s| == 0 then 0
    else DigitsValue(s[..|s| - 1]) * 10 + (s[|s| - 1] as int - '0' as int)
  }

  /** Reading back a formatted number gives the number. */
  lemma {:induction false} DecimalRoundTrip(n: nat)
    ensures DigitsValue(Decimal(n)) == n
    decreases n
  {
    var s := Decimal(n);
    if n >= 10 {
      assert s[..|s| - 1] == Decimal(n / 10);
      DecimalRoundTrip(n / 10);
      assert DigitsValue(s) == (n / 10) * 10 + n % 10;
    } else {
      assert s[..|s| - 1] == [];
    }
  }

  /** Different numbers have different decimal forms, so names built as
      prefix + Decimal(i) are pairwise distinct. */
  lemma DecimalInjective(a: nat, b: nat)
    requires Decimal(a) == Decimal(b)
    ensures a == b
  {
    DecimalRoundTrip(a);
    DecimalRoundTrip(b);
  }

  lemma PrefixedDecimalInjective(prefix: string, a: nat, b: nat)
    requires prefix + Decimal(a) == prefix + Decimal(b)
    ensures a == b
  {
    assert Decimal(a) == (prefix + Decimal(a))[|prefix|..];
    assert Decimal(b) == (prefix + Decimal(b))[|prefix|..];
    DecimalInjective(a, b);
  }

  /** strings.Join(xs, sep). */
  function Join(xs: seq<string>, sep: string): string
    decreases |xs|
  {
    if |xs| == 0 then ""
    else if |xs| == 1 then xs[0]
    else xs[0] + sep + Join(xs[1..], sep)
  }

  /** A word: non-empty, without a blank. */
  predicate IsWord(w: string) {
    |w| > 0 && ' ' !in w
  }

  /** Length of the leading run of characters other than c. */
  function RunLen(s: string, c: char): (n: nat)
    ensures n <= |s|
  {
    if |s| == 0 || s[0] == c then 0 else 1 + RunLen(s[1..], c)
  }

  /** The run ends at the first c, or at the end of s. */
  lemma {:induction false} RunLenStops(s: string, c: char)
    ensures forall i :: 0 <= i < RunLen(s, c) ==> s[i] != c
    ensures RunLen(s, c) < |s| ==> s[RunLen(s, c)] == c
    decreases |s|
  {
    if |s| > 0 && s[0] != c {
      RunLenStops(s[1..], c);
    }
  }

  /** RunLen is determined by where the first c is. */
  lemma {:induction false} RunLenAt(s: string, c: char, k: nat)
    requires k <= |s|
    requires forall i :: 0 <= i < k ==> s[i] != c
    requires k < |s| ==> s[k] == c
    ensures RunLen(s, c) == k
  {
    if k > 0 {
      RunLenAt(s[1..], c, k - 1);
    }
  }


  /** The words of s: maximal runs of non-blank characters, in order, as the
      shell splits a command line into arguments when blank is the only
      separator. */
  function Words(s: string): seq<string>
    decreases |s|
  {
    if |s| == 0 then []
    else if s[0] == ' ' then Words(s[1..])
    else
      var n := RunLen(s, ' ');
      [s[..n]] + Words(s[n..])
  }

  lemma WordIsOneWord(w: string)
    requires IsWord(w)
    ensures Words(w) == [w]
  {
    RunLenAt(w, ' ', |w|);
    assert w[0] != ' ';
    assert w[..|w|] == w && w[|w|..] == [];
    assert Words(w) == [w[..|w|]] + Words(w[|w|..]);
  }

  /** A blank separates the words of what precedes it from those of what
      follows it. */
  lemma {:induction false} WordsAtBlank(a: string, b: string)
    ensures Words(a + " " + b) == Words(a) + Words(b)
    decreases |a|
  {
    var s := a + " " + b;
    if |a| == 0 {
      assert s[1..] == b;
    } else if a[0] == ' ' {
      assert s[1..] == a[1..] + " " + b;
      WordsAtBlank(a[1..], b);
    } else {
      var n := RunLen(s, ' ');
      var m := RunLen(a, ' ');
      RunLenStops(a, ' ');
      if m < |a| {
        RunLenAt(s, ' ', m);
        assert s[..n] == a[..m];
        assert s[n..] == a[m..] + " " + b;
        WordsAtBlank(a[m..], b);
      } else {
        RunLenAt(s, ' ', |a|);
        assert s[..n] == a;
        assert s[n..] == " " + b;
        assert (" " + b)[0] == ' ' && (" " + b)[1..] == b;
        assert Words(" " + b) == Words(b);
        WordIsOneWord(a);
      }
    }
  }

  /** Joining words with blanks and splitting the result at blanks gives
      back the same list. Only the blank is a separator here; tabs,
      newlines and shell metacharacters are not interpreted. */
  lemma {:induction false} WordsOfJoin(xs: seq<string>)
    requires forall i :: 0 <= i < |xs| ==> IsWord(xs[i])
    ensures Words(Join(xs, " ")) == xs
    decreases |xs|
  {
    if |xs| == 1 {
      WordIsOneWord(xs[0]);
    } else if |xs| > 1 {
      WordsAtBlank(xs[0], Join(xs[1..], " "));
      WordIsOneWord(xs[0]);
      WordsOfJoin(xs[1..]);
    }
  }
}
