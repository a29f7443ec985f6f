/**
 * The few pieces of Go's fmt and strings packages that the camera node's
 * own logic depends on: `%d` formatting of an int, searching a string for
 * a character, and `strings.SplitN(s, " ", 3)`. Each comes with a partner
 * (a parser, a join) and the lemma that connects the two.
 */
module GoText {
  import opened Wrappers

  predicate IsDigit(c: char) { '0' <= c <= '9' }

  function DigitChar(d: nat): (c: char)
    requires d < 10
    ensures IsDigit(c) && c as int - '0' as int == d
  {
    ['0', '1', '2', '3', '4', '5', '6', '7', '8', '9'][d]
  }

  function DigitValue(c: char): (d: nat)
    requires IsDigit(c)
    ensures d < 10 && DigitChar(d) == c
  {
    (c as int - '0' as int)
  }

  /** Decimal digits of n, most significant first, as `%d` prints a non-negative int. */
  function NatToString(n: nat): (s: string)
    ensures |s| >= 1
    ensures forall i :: 0 <= i < |s| ==> IsDigit(s[i])
    ensures |s| > 1 ==> s[0] != '0'
  {
    if n < 10 then [DigitChar(n)] else NatToString(n / 10) + [DigitChar(n % 10)]
  }

  /** The value of a non-empty string of decimal digits. */
  function DigitsValue(s: string): nat
    requires |s| >= 1
    requires forall i :: 0 <= i < |s| ==> IsDigit(s[i])
  {
    if |s| == 1 then DigitValue(s[0])
    else DigitsValue(s[..|s| - 1]) * 10 + DigitValue(s[|s| - 1])
  }

  /** `fmt.Sprintf("%d", n)`: a leading '-' for negative values, then the digits. */
  function Itoa(n: int): (s: string)
    ensures |s| >= 1
    ensures forall i :: 0 <= i < |s| ==> IsDigit(s[i]) || (i == 0 && s[i] == '-')
    ensures n < 0 <==> s[0] == '-'
    ensures n >= 0 && |s| > 1 ==> s[0] != '0'
    ensures n < 0 ==> |s| >= 2 && s[1] != '0'
  {
    if n < 0 then "-" + NatToString(-n) else NatToString(n)
  }

  /** Reads back what Itoa writes: an optional '-' followed by at least one digit. */
  function ParseInt(s: string): Option<int>
  {
    if |s| >= 2 && s[0] == '-' && (forall i :: 1 <= i < |s| ==> IsDigit(s[i])) then
      Some(-(DigitsValue(s[1..]) as int))
    else if |s| >= 1 && forall i :: 0 <= i < |s| ==> IsDigit(s[i]) then
      Some(DigitsValue(s))
    else
      None
  }

  lemma {:induction false} NatToStringRoundTrip(n: nat)
    ensures DigitsValue(NatToString(n)) == n
  {
    if n >= 10 {
      var s := NatToString(n);
      assert s[..|s| - 1] == NatToString(n / 10);
      NatToStringRoundTrip(n / 10);
    }
  }

  /** A string of digits parses as its value. */
  lemma ParseDigits(s: string, v: nat)
    requires |s| >= 1 && forall i :: 0 <= i < |s| ==> IsDigit(s[i])
    requires DigitsValue(s) == v
    ensures ParseInt(s) == Some(v)
  {
    assert !IsDigit('-');
  }

  /** A '-' followed by digits parses as the negated value of the digits. */
  lemma ParseNegative(d: string, v: nat)
    requires |d| >= 1 && forall i :: 0 <= i < |d| ==> IsDigit(d[i])
    requires DigitsValue(d) == v
    ensures ParseInt("-" + d) == Some(-(v as int))
  {
    var s := "-" + d;
    assert s[1..] == d;
    forall i | 1 <= i < |s|
      ensures IsDigit(s[i])
    {
      assert s[i] == d[i - 1];
    }
  }

  /** The `%d` text of a natural number parses back to it. */
  lemma NatTextParses(m: nat)
    ensures ParseInt(NatToString(m)) == Some(m)
  {
    NatToStringRoundTrip(m);
    ParseDigits(NatToString(m), m);
  }

  /** The `%d` text of a negative number parses back to it. */
  lemma NegTextParses(m: nat)
    ensures ParseInt("-" + NatToString(m)) == Some(-(m as int))
  {
    NatToStringRoundTrip(m);
    ParseNegative(NatToString(m), m);
  }

  /** The `%d` text of every int parses back to that int. */
  lemma ItoaRoundTrip(n: int)
    ensures ParseInt(Itoa(n)) == Some(n)
  {
    if n < 0 {
      NegTextParses(-n);
    } else {
      NatTextParses(n);
    }
  }

  /** The index of the first occurrence of c in s, if any. */
  function IndexOf(s: string, c: char): (r: Option<nat>)
    ensures r.Some? ==> r.value < |s| && s[r.value] == c && c !in s[..r.value]
    ensures r.None? ==> c !in s
  {
    if |s| == 0 then None
    else if s[0] == c then Some(0)
    else match IndexOf(s[1..], c)
      case None => None
      case Some(i) => Some(i + 1)
  }

  /** The parts of a SplitN result glued back with single spaces. */
  function JoinSpace(parts: seq<string>): string
    requires |parts| >= 1
  {
    if |parts| == 1 then parts[0] else parts[0] + " " + JoinSpace(parts[1..])
  }

  lemma JoinSpace2(a: string, b: string)
    ensures JoinSpace([a, b]) == a + " " + b
  {
    assert [a, b][1..] == [b];
  }

  lemma JoinSpace3(a: string, b: string, c: string)
    ensures JoinSpace([a, b, c]) == a + " " + b + " " + c
  {
    assert [a, b, c][1..] == [b, c];
    JoinSpace2(b, c);
  }

  /**
   * `strings.SplitN(s, " ", 3)`: at most three parts, cut at the first two
   * spaces; the last part keeps every further space. Every part but the last
   * is free of spaces, fewer than three parts means the last one is too, and
   * joining the parts with single spaces gives back s.
   */
  function SplitN3(s: string): (parts: seq<string>)
    ensures 1 <= |parts| <= 3
    ensures JoinSpace(parts) == s
    ensures forall i :: 0 <= i < |parts| - 1 ==> ' ' !in parts[i]
    ensures |parts| < 3 ==> ' ' !in parts[|parts| - 1]
  {
    match IndexOf(s, ' ')
    case None => [s]
    case Some(i) =>
      var rest := s[i + 1..];
      match IndexOf(rest, ' ')
      case None =>
        CutOnce(s, i);
        [s[..i], rest]
      case Some(j) =>
        CutTwice(s, i, j);
        [s[..i], rest[..j], rest[j + 1..]]
  }

  /** Cutting s at a space and joining the two halves with a space gives back s. */
  lemma CutOnce(s: string, i: nat)
    requires i < |s| && s[i] == ' '
    ensures JoinSpace([s[..i], s[i + 1..]]) == s
  {
    JoinSpace2(s[..i], s[i + 1..]);
    assert s == s[..i] + " " + s[i + 1..];
  }

  /** The same for two cuts, the second one inside what follows the first. */
  lemma CutTwice(s: string, i: nat, j: nat)
    requires i < |s| && s[i] == ' '
    requires j < |s[i + 1..]| && s[i + 1..][j] == ' '
    ensures JoinSpace([s[..i], s[i + 1..][..j], s[i + 1..][j + 1..]]) == s
  {
    var rest := s[i + 1..];
    JoinSpace3(s[..i], rest[..j], rest[j + 1..]);
    assert rest == rest[..j] + " " + rest[j + 1..];
    assert s == s[..i] + " " + rest;
  }

  lemma {:induction false} IndexOfPrefix(a: string, b: string, c: char)
    requires c !in a && c in b
    ensures IndexOf(a + b, c) == Some(|a| + IndexOf(b, c).value)
  {
    if |a| > 0 {
      assert (a + b)[1..] == a[1..] + b;
      IndexOfPrefix(a[1..], b, c);
    } else {
      assert a + b == b;
    }
  }

  lemma IndexOfAbsent(s: string, c: char)
    requires c !in s
    ensures IndexOf(s, c) == None
  {
  }

  /** Cutting a + " " + rest at the first space, when a has none, gives back a and rest. */
  lemma CutAtFirstSpace(a: string, rest: string)
    requires ' ' !in a
    ensures IndexOf(a + " " + rest, ' ') == Some(|a|)
    ensures (a + " " + rest)[..|a|] == a && (a + " " + rest)[|a| + 1..] == rest
  {
    assert a + " " + rest == a + (" " + rest);
    IndexOfPrefix(a, " " + rest, ' ');
  }

  lemma SplitTwo(a: string, b: string)
    requires ' ' !in a && ' ' !in b
    ensures SplitN3(a + " " + b) == [a, b]
  {
    CutAtFirstSpace(a, b);
    IndexOfAbsent(b, ' ');
  }

  lemma SplitThree(a: string, b: string, c: string)
    requires ' ' !in a && ' ' !in b
    ensures SplitN3(a + " " + b + " " + c) == [a, b, c]
  {
    var rest := b + " " + c;
    assert a + " " + b + " " + c == a + " " + rest;
    CutAtFirstSpace(a, rest);
    CutAtFirstSpace(b, c);
  }

  /** Splitting what JoinSpace built gives back the parts: the other half of the round trip. */
  lemma {:induction false} SplitJoinRoundTrip(parts: seq<string>)
    requires 1 <= |parts| <= 3
    requires forall i :: 0 <= i < |parts| - 1 ==> ' ' !in parts[i]
    requires |parts| < 3 ==> ' ' !in parts[|parts| - 1]
    ensures SplitN3(JoinSpace(parts)) == parts
  {
    var a := parts[0];
    if |parts| == 1 {
      assert parts == [a];
      IndexOfAbsent(a, ' ');
    } else if |parts| == 2 {
      var b := parts[1];
      assert parts == [a, b];
      JoinSpace2(a, b);
      SplitTwo(a, b);
    } else {
      var b, c := parts[1], parts[2];
      assert parts == [a, b, c];
      JoinSpace3(a, b, c);
      SplitThree(a, b, c);
    }
  }
}
