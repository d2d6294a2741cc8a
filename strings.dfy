/**
 * The small pieces of Python string behaviour the core relies on:
 * rendering and parsing decimal numbers (f-strings and int()),
 * substring tests (`sub in s`), `str.rstrip('/')`, `str.split()` with no
 * argument and `" ".join(words)`.
 */
module Strings {

  // ---------------------------------------------------------------------------
  // Decimal numbers

  predicate IsDigit(c: char) {
    '0' <= c <= '9'
  }

  predicate AllDigits(s: string) {
    forall i :: 0 <= i < |s| ==> IsDigit(s[i])
  }

  function DigitChar(d: nat): (c: char)
    requires d < 10
    ensures IsDigit(c)
  {
    ('0' as int + d) as char
  }

  function DigitValue(c: char): (d: nat)
    requires IsDigit(c)
    ensures d < 10 && DigitChar(d) == c
  {
    c as int - '0' as int
  }

  /** The decimal text of `n`, as Python's f"{n}" writes it. */
  function NatToString(n: nat): (s: string)
    ensures s != [] && AllDigits(s)
    decreases n
  {
    if n < 10 then [DigitChar(n)] else NatToString(n / 10) + [DigitChar(n % 10)]
  }

  /** The value of a string of decimal digits, as Python's int() reads it. */
  function DigitsValue(s: string): nat
    requires AllDigits(s)
  {
    if s == [] then 0 else DigitsValue(s[..|s| - 1]) * 10 + DigitValue(s[|s| - 1])
  }

  /** Reading back the decimal text of a number gives the number. */
  lemma {:induction false} DigitsValueOfNatToString(n: nat)
    ensures DigitsValue(NatToString(n)) == n
    decreases n
  {
    var s := NatToString(n);
    if n < 10 {
      assert s[..|s| - 1] == [];
    } else {
      assert s[..|s| - 1] == NatToString(n / 10);
      DigitsValueOfNatToString(n / 10);
    }
  }

  /** Distinct numbers have distinct decimal texts. */
  lemma NatToStringInjective(m: nat, n: nat)
    requires NatToString(m) == NatToString(n)
    ensures m == n
  {
    DigitsValueOfNatToString(m);
    DigitsValueOfNatToString(n);
  }

  // ---------------------------------------------------------------------------
  // Substrings and stripping

  /** Python's `sub in s`. */
  predicate Contains(s: string, sub: string)
    decreases |s|
  {
    sub <= s || (s != [] && Contains(s[1..], sub))
  }

  /** Python's `s.rstrip('/')`: every trailing slash removed. */
  function RStripSlashes(s: string): (r: string)
    ensures r <= s
    ensures r == [] || r[|r| - 1] != '/'
    ensures forall i :: |r| <= i < |s| ==> s[i] == '/'
  {
    if s != [] && s[|s| - 1] == '/' then RStripSlashes(s[..|s| - 1]) else s
  }

  // ---------------------------------------------------------------------------
  // Whitespace splitting and joining

  /** The characters Python's str.split() with no argument treats as whitespace. */
  predicate IsSpace(c: char) {
    ('\t' <= c <= '\r') || ('\U{1C}' <= c <= ' ') || c == '\U{85}' || c == '\U{A0}'
    || c == '\U{1680}' || ('\U{2000}' <= c <= '\U{200A}') || c == '\U{2028}' || c == '\U{2029}'
    || c == '\U{202F}' || c == '\U{205F}' || c == '\U{3000}'
  }

  /** A word as str.split() returns it: non-empty and free of whitespace. */
  predicate IsWord(w: string) {
    w != [] && forall i :: 0 <= i < |w| ==> !IsSpace(w[i])
  }

  /** The length of the run of non-whitespace characters that starts `s`. */
  function WordLength(s: string): (n: nat)
    ensures n <= |s|
    ensures forall i :: 0 <= i < n ==> !IsSpace(s[i])
    ensures n < |s| ==> IsSpace(s[n])
  {
    if s == [] || IsSpace(s[0]) then 0 else 1 + WordLength(s[1..])
  }

  /** Python's `s.split()`: the maximal runs of non-whitespace characters, in order. */
  function Words(s: string): seq<string>
    decreases |s|
  {
    if s == [] then []
    else if IsSpace(s[0]) then Words(s[1..])
    else
      var n := WordLength(s);
      [s[..n]] + Words(s[n..])
  }

  /** Every piece `Words` returns is a word: non-empty, without whitespace. */
  lemma {:induction false} WordsAreWords(s: string)
    ensures forall k :: 0 <= k < |Words(s)| ==> IsWord(Words(s)[k])
    decreases |s|
  {
    if s == [] {
    } else if IsSpace(s[0]) {
      WordsAreWords(s[1..]);
    } else {
      var n := WordLength(s);
      WordsAreWords(s[n..]);
      assert IsWord(s[..n]);
    }
  }

  /** Python's `" ".join(ws)`. */
  function Join(ws: seq<string>): string {
    if ws == [] then "" else if |ws| == 1 then ws[0] else ws[0] + " " + Join(ws[1..])
  }

  lemma {:induction false} WordLengthAppend(a: string, b: string)
    ensures WordLength(a + b) == if WordLength(a) < |a| then WordLength(a) else |a| + WordLength(b)
  {
    if a == [] {
      assert a + b == b;
    } else if !IsSpace(a[0]) {
      assert (a + b)[1..] == a[1..] + b;
      WordLengthAppend(a[1..], b);
    }
  }

  /** Two strings that meet at whitespace (or where one is empty) split independently. */
  predicate MeetAtSpace(a: string, b: string) {
    a == [] || b == [] || IsSpace(a[|a| - 1]) || IsSpace(b[0])
  }

  /** One step of Words on a string that starts with a word of length n. */
  lemma WordsStep(s: string)
    requires s != [] && !IsSpace(s[0])
    ensures Words(s) == [s[..WordLength(s)]] + Words(s[WordLength(s)..])
  {
  }

  /** A word at the start of `a` ends where it ends in `a + b` when the two meet at whitespace. */
  lemma WordLengthAtMeet(a: string, b: string)
    requires a != [] && !IsSpace(a[0]) && MeetAtSpace(a, b)
    ensures WordLength(a + b) == WordLength(a)
  {
    WordLengthAppend(a, b);
    if WordLength(a) == |a| {
      assert !IsSpace(a[|a| - 1]);
      assert b == [] || IsSpace(b[0]);
    }
  }

  /** Over `a + b`, Words first takes the first word of `a`, then splits the rest. */
  lemma WordsAfterFirstWord(a: string, b: string)
    requires a != [] && !IsSpace(a[0]) && MeetAtSpace(a, b)
    ensures Words(a + b) == [a[..WordLength(a)]] + Words(a[WordLength(a)..] + b)
  {
    var n := WordLength(a);
    var ab := a + b;
    WordLengthAtMeet(a, b);
    assert ab[..n] == a[..n];
    assert ab[n..] == a[n..] + b;
    WordsStep(ab);
  }

  /** The word case of WordsAppend, given the claim for what follows the first word. */
  lemma WordsAppendAfterWord(a: string, b: string)
    requires a != [] && !IsSpace(a[0]) && MeetAtSpace(a, b)
    requires Words(a[WordLength(a)..] + b) == Words(a[WordLength(a)..]) + Words(b)
    ensures Words(a + b) == Words(a) + Words(b)
  {
    var n := WordLength(a);
    var first, rest, tail := [a[..n]], Words(a[n..]), Words(b);
    WordsAfterFirstWord(a, b);
    assert Words(a + b) == first + (rest + tail);
    WordsStep(a);
    assert first + (rest + tail) == (first + rest) + tail;
  }

  /** The rest of `a` after its first word still meets `b` at whitespace. */
  lemma MeetAfterWord(a: string, b: string)
    requires a != [] && !IsSpace(a[0]) && MeetAtSpace(a, b)
    ensures MeetAtSpace(a[WordLength(a)..], b)
  {
    var n := WordLength(a);
    if n < |a| {
      assert a[n..][|a[n..]| - 1] == a[|a| - 1];
    }
  }

  lemma {:induction false} WordsAppend(a: string, b: string)
    requires MeetAtSpace(a, b)
    ensures Words(a + b) == Words(a) + Words(b)
    decreases |a|
  {
    if a == [] {
      assert a + b == b;
    } else if IsSpace(a[0]) {
      assert (a + b)[1..] == a[1..] + b;
      WordsAppend(a[1..], b);
    } else {
      MeetAfterWord(a, b);
      WordsAppend(a[WordLength(a)..], b);
      WordsAppendAfterWord(a, b);
    }
  }

  lemma WordsOfSpaceThen(s: string)
    ensures Words(" " + s) == Words(s)
  {
    assert (" " + s)[1..] == s;
  }

  lemma WordsOfWord(w: string)
    requires IsWord(w)
    ensures Words(w) == [w]
  {
    assert WordLength(w) == |w|;
    assert w[..|w|] == w;
    assert w[|w|..] == [];
  }

  /** Splitting a join of words gives the words back. */
  lemma {:induction false} WordsOfJoin(ws: seq<string>)
    requires forall k :: 0 <= k < |ws| ==> IsWord(ws[k])
    ensures Words(Join(ws)) == ws
  {
    if ws == [] {
    } else if |ws| == 1 {
      WordsOfWord(ws[0]);
    } else {
      var rest := " " + Join(ws[1..]);
      assert Join(ws) == ws[0] + rest;
      WordsAppend(ws[0], rest);
      WordsOfWord(ws[0]);
      WordsOfSpaceThen(Join(ws[1..]));
      WordsOfJoin(ws[1..]);
      assert ws == [ws[0]] + ws[1..];
    }
  }

  lemma {:induction false} JoinSnoc(ws: seq<string>, w: string)
    ensures Join(ws + [w]) == if ws == [] then w else Join(ws) + " " + w
  {
    if ws == [] {
      assert ws + [w] == [w];
    } else if |ws| == 1 {
      assert ws + [w] == [ws[0], w];
    } else {
      assert (ws + [w])[1..] == ws[1..] + [w];
      JoinSnoc(ws[1..], w);
    }
  }
}
