/**
 * Callback tokens of the answer buttons.
 *
 * The bot labels the button of option `i` with the token `answer_<i>` and,
 * when the button is pressed, recovers `i` with Python's `split('_')[1]`
 * followed by `int(...)`. This module models both directions on strings.
 */
module Tokens {
  import opened Wrappers

  const AnswerPrefix: string := "answer"
  const Separator: char := '_'

  // ---------------------------------------------------------------------
  // Python's str.split with a one-character separator
  // ---------------------------------------------------------------------

  /** Position of the first `c` in `s`, or `|s|` when there is none. */
  function IndexOf(s: string, c: char): (k: nat)
    ensures k <= |s|
    ensures c !in s[..k]
    ensures k < |s| ==> s[k] == c
  {
    if s == [] then 0
    else if s[0] == c then 0
    else
      var k := 1 + IndexOf(s[1..], c);
      assert s[..k] == [s[0]] + s[1..][..k - 1];
      k
  }

  /** The fields of `s` between occurrences of `sep`, as `s.split(sep)`. */
  function Split(s: string, sep: char): (fields: seq<string>)
    ensures |fields| >= 1
    ensures forall k :: 0 <= k < |fields| ==> sep !in fields[k]
    decreases |s|
  {
    var k := IndexOf(s, sep);
    if k == |s| then
      assert s[..k] == s;
      [s]
    else
      [s[..k]] + Split(s[k + 1..], sep)
  }

  /** The inverse direction: `sep.join(fields)`. */
  function Join(fields: seq<string>, sep: char): string
    requires |fields| >= 1
  {
    if |fields| == 1 then fields[0]
    else fields[0] + [sep] + Join(fields[1..], sep)
  }

  /** Splitting a string with a separator at a known first position. */
  lemma SplitAtFirst(a: string, sep: char, b: string)
    requires sep !in a
    ensures Split(a + [sep] + b, sep) == [a] + Split(b, sep)
  {
    var s := a + [sep] + b;
    var k := IndexOf(s, sep);
    assert s[|a|] == sep;
    assert k == |a|;
    assert s[..k] == a;
    assert s[k + 1..] == b;
  }

  /** Joining then splitting gives back the fields (when no field holds the separator). */
  lemma {:induction false} SplitJoin(fields: seq<string>, sep: char)
    requires |fields| >= 1
    requires forall k :: 0 <= k < |fields| ==> sep !in fields[k]
    ensures Split(Join(fields, sep), sep) == fields
    decreases |fields|
  {
    if |fields| == 1 {
      var s := fields[0];
      assert IndexOf(s, sep) == |s|;
      assert s[..|s|] == s;
    } else {
      assert sep !in fields[0];
      SplitAtFirst(fields[0], sep, Join(fields[1..], sep));
      SplitJoin(fields[1..], sep);
      assert fields == [fields[0]] + fields[1..];
    }
  }

  /** Splitting then joining gives back the string. */
  lemma {:induction false} JoinSplit(s: string, sep: char)
    ensures Join(Split(s, sep), sep) == s
    decreases |s|
  {
    var k := IndexOf(s, sep);
    if k == |s| {
      assert s[..k] == s;
    } else {
      var rest := s[k + 1..];
      var tail := Split(rest, sep);
      JoinSplit(rest, sep);
      var fields := Split(s, sep);
      assert fields == [s[..k]] + tail;
      assert fields[1..] == tail;
      calc {
        Join(fields, sep);
        fields[0] + [sep] + Join(tail, sep);
        s[..k] + [sep] + rest;
        { assert s == s[..k] + [sep] + rest; }
        s;
      }
    }
  }

  // ---------------------------------------------------------------------
  // Decimal numerals: Python's str(i) for i >= 0 and int(s)
  // ---------------------------------------------------------------------

  predicate IsDigit(c: char) { '0' <= c <= '9' }

  predicate IsDigits(s: string)
  {
    |s| > 0 && forall k :: 0 <= k < |s| ==> IsDigit(s[k])
  }

  function DigitChar(d: nat): (c: char)
    requires d < 10
    ensures IsDigit(c)
  {
    ('0' as int + d) as char
  }

  /** The value of a digit string, read most significant digit first. */
  function DigitsValue(s: string): (v: nat)
    requires forall k :: 0 <= k < |s| ==> IsDigit(s[k])
  {
    if s == [] then 0
    else
      assert IsDigit(s[|s| - 1]);
      DigitsValue(s[..|s| - 1]) * 10 + (s[|s| - 1] as int - '0' as int)
  }

  /** `str(n)` for a non-negative integer: shortest decimal numeral. */
  function NatToString(n: nat): (s: string)
    ensures IsDigits(s)
    ensures |s| > 1 ==> s[0] != '0'
  {
    if n < 10 then [DigitChar(n)]
    else NatToString(n / 10) + [DigitChar(n % 10)]
  }

  /** Reading back the numeral of `n` gives `n`. */
  lemma {:induction false} NatToStringValue(n: nat)
    ensures DigitsValue(NatToString(n)) == n
  {
    if n >= 10 {
      var s := NatToString(n);
      assert s[..|s| - 1] == NatToString(n / 10);
      NatToStringValue(n / 10);
    }
  }

  /** `int(f)` on a field without whitespace: an optional sign and decimal digits. */
  function ParseInt(f: string): (r: Option<int>)
    ensures r.Some? <==> IsDigits(f) || (|f| > 1 && f[0] in "+-" && IsDigits(f[1..]))
  {
    if |f| > 0 && f[0] == '-' then
      if IsDigits(f[1..]) then Some(0 - DigitsValue(f[1..]) as int) else None
    else if |f| > 0 && f[0] == '+' then
      if IsDigits(f[1..]) then Some(DigitsValue(f[1..])) else None
    else if IsDigits(f) then Some(DigitsValue(f))
    else None
  }

  // ---------------------------------------------------------------------
  // The answer token
  // ---------------------------------------------------------------------

  /**
   * The callback data of the button for option `i`, `f'answer_{i}'`. It
   * starts with `answer_`, the pattern that routes a press to the answer
   * handler, splits into the prefix and the numeral of `i`, and parses back
   * to exactly `i`.
   */
  function EncodeAnswer(i: nat): (token: string)
    ensures AnswerPrefix + [Separator] <= token
    ensures Split(token, Separator) == [AnswerPrefix, NatToString(i)]
    ensures ParseAnswer(token) == Some(i)
  {
    var digits := NatToString(i);
    var token := AnswerPrefix + [Separator] + digits;
    assert Join([AnswerPrefix, digits], Separator) == token;
    SplitJoin([AnswerPrefix, digits], Separator);
    assert IsDigit(digits[0]);
    NatToStringValue(i);
    token
  }

  /** `int(token.split('_')[1])`: `None` where Python raises IndexError or ValueError. */
  function ParseAnswer(token: string): (r: Option<int>)
    ensures r.Some? ==> |Split(token, Separator)| >= 2
  {
    var fields := Split(token, Separator);
    if |fields| < 2 then None else ParseInt(fields[1])
  }

  /** A token without any separator is rejected (Python raises IndexError). */
  lemma NoSeparatorRejected(token: string)
    requires Separator !in token
    ensures ParseAnswer(token) == None
  {
    SplitJoin([token], Separator);
  }
}
