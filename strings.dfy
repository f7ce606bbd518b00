/** Python's text primitives that the model relies on: `str.isspace`,
    `int()` on a decimal string, `str()` of an integer and `str.split()`
    with no separator. */
module Strings {

  import opened Wrappers

  /** The characters for which Python's `str.isspace()` holds; `str.split()`
      splits on runs of them (for `int()` see `IsIntSpace`). */
  predicate IsSpace(c: char)
  {
    || ('\t' <= c <= '\r')
    || ('\U{1C}' <= c <= ' ')
    || c == '\U{85}' || c == '\U{A0}' || c == '\U{1680}'
    || ('\U{2000}' <= c <= '\U{200A}')
    || c == '\U{2028}' || c == '\U{2029}' || c == '\U{202F}' || c == '\U{205F}' || c == '\U{3000}'
  }

  /** The characters `int()` strips around its digits: the ASCII
      whitespace `\t\n\v\f\r` and space, and every non-ASCII character
      with `str.isspace()`. U+001C to U+001F are whitespace for `split()`
      but not for `int()`. */
  predicate IsIntSpace(c: char)
  {
    IsSpace(c) && !('\U{1C}' <= c <= '\U{1F}')
  }

  predicate IsDigit(c: char)
  {
    '0' <= c <= '9'
  }

  function DigitValue(c: char): nat
  {
    if IsDigit(c) then c as int - '0' as int else 0
  }

  function DigitChar(d: nat): (c: char)
    requires d < 10
    ensures IsDigit(c) && DigitValue(c) == d
  {
    ('0' as int + d) as char
  }

  // ---------------------------------------------------------------------
  // str() of an integer

  /** The decimal rendering Python's `str()` gives a non-negative integer. */
  function NatToString(n: nat): (r: string)
    ensures |r| > 0
    ensures forall i :: 0 <= i < |r| ==> IsDigit(r[i])
  {
    if n < 10 then [DigitChar(n)] else NatToString(n / 10) + [DigitChar(n % 10)]
  }

  function IntToString(n: int): string
  {
    if n < 0 then "-" + NatToString(-n) else NatToString(n)
  }

  // ---------------------------------------------------------------------
  // int() of a string, base 10

  function TrimStart(s: string): string
  {
    if |s| > 0 && IsIntSpace(s[0]) then TrimStart(s[1..]) else s
  }

  function TrimEnd(s: string): string
  {
    if |s| > 0 && IsIntSpace(s[|s| - 1]) then TrimEnd(s[..|s| - 1]) else s
  }

  /** The stripping `int()` does before it reads the digits. */
  function Strip(s: string): string
  {
    TrimEnd(TrimStart(s))
  }

  /** The digit part `int()` accepts in base 10: ASCII digits, where an
      underscore may stand only between two digits. */
  predicate WellFormedDigits(b: string)
  {
    && |b| > 0
    && IsDigit(b[0])
    && IsDigit(b[|b| - 1])
    && (forall i :: 0 <= i < |b| ==> IsDigit(b[i]) || b[i] == '_')
    && (forall i :: 0 <= i < |b| - 1 ==> b[i] == '_' ==> IsDigit(b[i + 1]))
  }

  /** The number a digit run denotes, underscores skipped. */
  function DigitsValue(b: string): nat
  {
    if |b| == 0 then 0
    else if b[|b| - 1] == '_' then DigitsValue(b[..|b| - 1])
    else DigitsValue(b[..|b| - 1]) * 10 + DigitValue(b[|b| - 1])
  }

  /** `int(s)`: surrounding whitespace, an optional sign, then digits; None
      where Python raises ValueError. */
  function ParseInt(s: string): Option<int>
  {
    var t := Strip(s);
    if |t| > 0 && (t[0] == '+' || t[0] == '-') then
      var magnitude: int := DigitsValue(t[1..]);
      if WellFormedDigits(t[1..]) then Some(if t[0] == '-' then -magnitude else magnitude)
      else None
    else if WellFormedDigits(t) then Some(DigitsValue(t))
    else None
  }

  lemma StripKeeps(s: string)
    requires |s| > 0 && !IsIntSpace(s[0]) && !IsIntSpace(s[|s| - 1])
    ensures Strip(s) == s
  {
  }

  lemma {:induction false} DigitsValueOfNatToString(n: nat)
    ensures DigitsValue(NatToString(n)) == n
  {
    if n >= 10 {
      var s := NatToString(n);
      assert s[..|s| - 1] == NatToString(n / 10);
      DigitsValueOfNatToString(n / 10);
    }
  }

  /** `int(str(n)) == n` for every integer (the model has no digit limit). */
  lemma ParseIntOfIntToString(n: int)
    ensures ParseInt(IntToString(n)) == Some(n)
  {
    var s := IntToString(n);
    var k: nat := if n < 0 then -n else n;
    var digits := NatToString(k);
    assert !IsIntSpace(digits[|digits| - 1]);
    DigitsValueOfNatToString(k);
    if n < 0 {
      assert s == "-" + digits;
      StripKeeps(s);
      assert s[1..] == digits;
    } else {
      assert s == digits;
      StripKeeps(s);
    }
  }

  // ---------------------------------------------------------------------
  // str.split() with no separator

  /** Length of the run of non-space characters that starts `s`. */
  function WordLength(s: string): (n: nat)
    ensures n <= |s|
    ensures forall i :: 0 <= i < n ==> !IsSpace(s[i])
    ensures n == |s| || IsSpace(s[n])
  {
    if |s| == 0 || IsSpace(s[0]) then 0 else 1 + WordLength(s[1..])
  }

  /** `s.split()`: the maximal runs of non-space characters, in order. */
  function SplitWhitespace(s: string): seq<string>
    decreases |s|
  {
    if |s| == 0 then []
    else if IsSpace(s[0]) then SplitWhitespace(s[1..])
    else
      var n := WordLength(s);
      [s[..n]] + SplitWhitespace(s[n..])
  }

  predicate IsWord(w: string)
  {
    |w| > 0 && forall i :: 0 <= i < |w| ==> !IsSpace(w[i])
  }

  /** Words joined by single spaces: `" ".join(words)`. */
  function JoinSpaces(words: seq<string>): string
  {
    if |words| == 0 then ""
    else if |words| == 1 then words[0]
    else words[0] + " " + JoinSpaces(words[1..])
  }

  lemma {:induction false} WordLengthOfWord(w: string, rest: string)
    requires IsWord(w)
    requires |rest| == 0 || IsSpace(rest[0])
    ensures WordLength(w + rest) == |w|
  {
    if |w| > 1 {
      assert (w + rest)[1..] == w[1..] + rest;
      WordLengthOfWord(w[1..], rest);
    } else {
      assert (w + rest)[1..] == rest;
    }
  }

  /** Splitting words joined by single spaces gives the words back. */
  lemma {:induction false} SplitJoinSpaces(words: seq<string>)
    requires forall i :: 0 <= i < |words| ==> IsWord(words[i])
    ensures SplitWhitespace(JoinSpaces(words)) == words
  {
    if |words| == 1 {
      var w := words[0];
      WordLengthOfWord(w, "");
      assert w + "" == w;
      assert w[|w|..] == "";
    } else if |words| > 1 {
      var w := words[0];
      var rest := JoinSpaces(words[1..]);
      var s := w + " " + rest;
      assert s == w + (" " + rest);
      WordLengthOfWord(w, " " + rest);
      assert s[..|w|] == w;
      assert s[|w|..] == " " + rest;
      assert (" " + rest)[1..] == rest;
      SplitJoinSpaces(words[1..]);
    }
  }
}
