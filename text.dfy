/** The pieces of .NET string handling the formatter relies on: `string.Join`,
    the decimal rendering of a millisecond count, and the few scanners the
    log-line reader needs. */
module Text {

  predicate StartsWith(s: string, prefix: string) {
    |prefix| <= |s| && s[..|prefix|] == prefix
  }

  predicate EndsWith(s: string, suffix: string) {
    |suffix| <= |s| && s[|s| - |suffix|..] == suffix
  }

  lemma Associate(a: string, b: string, c: string)
    ensures a + (b + c) == a + b + c
  {
  }

  /** `string.Join(separator, parts)`: the parts in order, one separator
      between each two neighbours, none before the first or after the last. */
  function Join(separator: string, parts: seq<string>): (r: string)
    ensures parts == [] ==> r == ""
    ensures parts != [] ==> StartsWith(r, parts[0]) && EndsWith(r, parts[|parts| - 1])
  {
    if |parts| == 0 then ""
    else if |parts| == 1 then parts[0]
    else parts[0] + separator + Join(separator, parts[1..])
  }

  /** Joining two non-empty runs of parts puts one separator between them. */
  lemma {:induction false} JoinSplit(separator: string, a: seq<string>, b: seq<string>)
    requires a != [] && b != []
    ensures Join(separator, a + b) == Join(separator, a) + separator + Join(separator, b)
  {
    if |a| == 1 {
      assert (a + b)[1..] == b;
    } else {
      assert (a + b)[1..] == a[1..] + b;
      JoinSplit(separator, a[1..], b);
    }
  }

  /** The join of the parts from i on is part i, then the rest behind a separator. */
  lemma JoinFrom(separator: string, parts: seq<string>, i: nat)
    requires i < |parts|
    ensures Join(separator, parts[i..])
         == parts[i] + (if i + 1 < |parts| then separator + Join(separator, parts[i + 1..]) else "")
  {
    var tail := parts[i..];
    if i + 1 < |parts| {
      assert tail[1..] == parts[i + 1..];
      assert Join(separator, tail) == parts[i] + separator + Join(separator, parts[i + 1..]);
      Associate(parts[i], separator, Join(separator, parts[i + 1..]));
    } else {
      assert tail == [parts[i]];
    }
  }

  /** Order is kept: part i stands after the join of the parts before it and
      one separator, and before one separator and the join of the parts after it. */
  lemma {:induction false} JoinPartAt(separator: string, parts: seq<string>, i: nat)
    requires i < |parts|
    ensures Join(separator, parts)
         == (if i == 0 then "" else Join(separator, parts[..i]) + separator)
            + parts[i]
            + (if i + 1 < |parts| then separator + Join(separator, parts[i + 1..]) else "")
  {
    var after := if i + 1 < |parts| then separator + Join(separator, parts[i + 1..]) else "";
    JoinFrom(separator, parts, i);
    if i > 0 {
      var before := Join(separator, parts[..i]) + separator;
      assert parts == parts[..i] + parts[i..];
      JoinSplit(separator, parts[..i], parts[i..]);
      Associate(before, parts[i], after);
    } else {
      assert parts == parts[i..];
    }
  }

  predicate IsDigit(c: char) {
    '0' <= c <= '9'
  }

  predicate IsDigits(s: string) {
    forall i :: 0 <= i < |s| ==> IsDigit(s[i])
  }

  function DigitChar(d: nat): (c: char)
    requires d < 10
    ensures IsDigit(c) && c as int - '0' as int == d
  {
    ('0' as int + d) as char
  }

  /** The invariant-culture decimal text of a non-negative integer, as
      string interpolation prints a `long`: at least one digit and no
      leading zero, so "0" is the only text starting with '0'. */
  function NatToString(n: nat): (r: string)
    ensures r != [] && IsDigits(r)
    ensures r[0] == '0' <==> n == 0
    ensures r[0] == '0' ==> r == "0"
    decreases n
  {
    if n < 10 then [DigitChar(n)] else NatToString(n / 10) + [DigitChar(n % 10)]
  }

  /** The number a run of decimal digits stands for. */
  function DigitsValue(s: string): (r: nat)
    requires IsDigits(s)
  {
    if s == [] then 0 else 10 * DigitsValue(s[..|s| - 1]) + (s[|s| - 1] as int - '0' as int)
  }

  lemma {:induction false} NatToStringRoundTrip(n: nat)
    ensures DigitsValue(NatToString(n)) == n
  {
    if n >= 10 {
      var s := NatToString(n);
      assert s[..|s| - 1] == NatToString(n / 10);
      NatToStringRoundTrip(n / 10);
    }
  }

  /** The longest run of digits at the end of `s`. */
  function TrailingDigits(s: string): (r: string)
    ensures IsDigits(r) && EndsWith(s, r)
  {
    if s != [] && IsDigit(s[|s| - 1]) then
      var rest := TrailingDigits(s[..|s| - 1]);
      assert s[|s| - 1 - |rest|..] == s[..|s| - 1][|s| - 1 - |rest|..] + [s[|s| - 1]];
      rest + [s[|s| - 1]]
    else []
  }

  lemma {:induction false} TrailingDigitsOf(prefix: string, digits: string)
    requires IsDigits(digits)
    requires prefix == [] || !IsDigit(prefix[|prefix| - 1])
    ensures TrailingDigits(prefix + digits) == digits
  {
    var s := prefix + digits;
    if digits == [] {
      assert s == prefix;
    } else {
      var front := digits[..|digits| - 1];
      var last := digits[|digits| - 1];
      assert s[|s| - 1] == last && IsDigit(last);
      assert s[..|s| - 1] == prefix + front;
      TrailingDigitsOf(prefix, front);
      assert TrailingDigits(s) == TrailingDigits(prefix + front) + [last];
      assert digits == front + [last];
    }
  }

  /** The characters of `s` before the first `stop` (all of `s` if none). */
  function TakeUntil(s: string, stop: char): (r: string)
    ensures StartsWith(s, r) && stop !in r
    ensures |r| < |s| ==> s[|r|] == stop
  {
    if s == [] || s[0] == stop then [] else [s[0]] + TakeUntil(s[1..], stop)
  }

  lemma {:induction false} TakeUntilOf(before: string, stop: char, after: string)
    requires stop !in before
    ensures TakeUntil(before + [stop] + after, stop) == before
  {
    var s := before + [stop] + after;
    if before != [] {
      assert s[0] == before[0];
      assert s[1..] == before[1..] + [stop] + after;
      TakeUntilOf(before[1..], stop, after);
      assert before == [before[0]] + before[1..];
    }
  }
}
