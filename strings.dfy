/**
 * String helpers with JavaScript's meaning: `s.split(c)` for a one-character
 * separator, `arr.join(sep)`, and the decimal rendering `String(n)` of an
 * integer.
 */
module Strings {

  /** `s.split(d)`: the maximal pieces of `s` between occurrences of `d`. */
  function Split(s: string, d: char): (r: seq<string>)
    ensures |r| >= 1
    ensures forall i :: 0 <= i < |r| ==> d !in r[i]
    decreases |s|
  {
    if |s| == 0 then [""]
    else
      var rest := Split(s[1..], d);
      if s[0] == d then [""] + rest
      else [[s[0]] + rest[0]] + rest[1..]
  }

  /** A string without the separator is one piece. */
  lemma {:induction false} SplitWithoutDelimiter(s: string, d: char)
    requires d !in s
    ensures Split(s, d) == [s]
    decreases |s|
  {
    if |s| > 0 {
      assert d !in s[1..];
      SplitWithoutDelimiter(s[1..], d);
      assert [s[0]] + s[1..] == s;
    }
  }

  /** The first separator closes the first piece; the rest splits on its own. */
  lemma {:induction false} SplitAtFirstDelimiter(a: string, d: char, b: string)
    requires d !in a
    ensures Split(a + [d] + b, d) == [a] + Split(b, d)
    decreases |a|
  {
    var s := a + [d] + b;
    if |a| == 0 {
      assert s[0] == d && s[1..] == b;
    } else {
      assert s[0] == a[0] && s[1..] == a[1..] + [d] + b;
      assert d !in a[1..];
      SplitAtFirstDelimiter(a[1..], d, b);
      assert [a[0]] + a[1..] == a;
    }
  }

  /** `parts.join(sep)`. */
  function Join(parts: seq<string>, sep: string): (r: string)
    ensures |parts| == 1 ==> r == parts[0]
    ensures |parts| == 0 ==> r == ""
  {
    if |parts| == 0 then ""
    else if |parts| == 1 then parts[0]
    else parts[0] + sep + Join(parts[1..], sep)
  }

  /** A character found in no part and not in the separator is not in the join. */
  lemma {:induction false} JoinAvoids(parts: seq<string>, sep: string, c: char)
    requires c !in sep
    requires forall i :: 0 <= i < |parts| ==> c !in parts[i]
    ensures c !in Join(parts, sep)
    decreases |parts|
  {
    if |parts| > 1 {
      JoinAvoids(parts[1..], sep, c);
    }
  }

  predicate IsDigit(c: char) { '0' <= c <= '9' }

  /** Decimal digits of a natural number, most significant first, no leading zero. */
  function NatToString(n: nat): (r: string)
    ensures |r| >= 1
    ensures forall i :: 0 <= i < |r| ==> IsDigit(r[i])
    decreases n
  {
    var digit := ['0' + (n % 10) as char];
    if n < 10 then digit else NatToString(n / 10) + digit
  }

  /** JavaScript's `String(n)` for an integer value. */
  function IntToString(n: int): (r: string)
    ensures |r| >= 1
    ensures n >= 0 ==> forall i :: 0 <= i < |r| ==> IsDigit(r[i])
    ensures n < 0 ==> r[0] == '-'
  {
    if n >= 0 then NatToString(n) else "-" + NatToString(-n)
  }
}
