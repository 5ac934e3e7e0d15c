/** The JavaScript string operations the backend relies on: writing an integer as
    text, `indexOf`, `replace` with a string pattern, `toLowerCase`, `split(sep)[0]`
    and `join(',')`, together with the parsers that invert the textual forms. */
module Strings {

  predicate IsDigit(c: char) { '0' <= c <= '9' }

  predicate AllDigits(s: string) { forall i :: 0 <= i < |s| ==> IsDigit(s[i]) }

  /** Only digits and commas: the shape of a comma-joined list of integers. */
  predicate DigitsOrCommas(s: string) { forall i :: 0 <= i < |s| ==> IsDigit(s[i]) || s[i] == ',' }

  function DigitChar(d: nat): (c: char)
    requires d < 10
    ensures IsDigit(c) && c as int - '0' as int == d
  {
    ('0' as int + d) as char
  }

  /** The decimal text JavaScript writes for a non-negative integer (`String(n)`,
      `'' + n`, `[n].join()`): digits only, and a leading zero only for 0 itself. */
  function NatToString(n: nat): (s: string)
    ensures |s| > 0 && AllDigits(s)
    ensures s[0] == '0' <==> n == 0
  {
    if n < 10 then [DigitChar(n)] else NatToString(n / 10) + [DigitChar(n % 10)]
  }

  /** `String(i)` for any integer: a minus sign before the digits of a negative one. */
  function IntToString(i: int): (s: string)
    ensures ',' !in s
  {
    if i < 0 then "-" + NatToString(-i) else NatToString(i)
  }

  /** The value of a string of decimal digits (the empty string reads as 0). */
  function ParseNat(s: string): nat
    requires AllDigits(s)
  {
    if s == [] then 0 else 10 * ParseNat(s[..|s| - 1]) + (s[|s| - 1] as int - '0' as int)
  }

  lemma {:induction false} ParseNatToString(n: nat)
    ensures ParseNat(NatToString(n)) == n
  {
    if n >= 10 {
      var s := NatToString(n);
      assert s[..|s| - 1] == NatToString(n / 10);
      ParseNatToString(n / 10);
    }
  }

  /** `pat` occurs in `s` starting at index `i`. */
  predicate OccursAt(s: string, pat: string, i: nat) {
    i + |pat| <= |s| && s[i..i + |pat|] == pat
  }

  /** `s.indexOf(pat, i)`: the first index at or after `i` where `pat` occurs, or -1. */
  function IndexOfFrom(s: string, pat: string, i: nat): (r: int)
    requires i <= |s|
    ensures r == -1 ==> forall j :: i <= j <= |s| ==> !OccursAt(s, pat, j)
    ensures r != -1 ==> i <= r <= |s| && OccursAt(s, pat, r)
    ensures r != -1 ==> forall j :: i <= j < r ==> !OccursAt(s, pat, j)
    decreases |s| - i
  {
    if OccursAt(s, pat, i) then i
    else if i == |s| then -1
    else IndexOfFrom(s, pat, i + 1)
  }

  /** `s.indexOf(pat)`. */
  function IndexOf(s: string, pat: string): (r: int)
    ensures r == -1 <==> forall j :: 0 <= j <= |s| ==> !OccursAt(s, pat, j)
    ensures r != -1 ==> 0 <= r <= |s| && OccursAt(s, pat, r)
    ensures r != -1 ==> forall j :: 0 <= j < r ==> !OccursAt(s, pat, j)
  {
    IndexOfFrom(s, pat, 0)
  }

  /** `s.indexOf(pat) != -1`, the test the backend writes for "contains". */
  predicate Contains(s: string, pat: string) {
    IndexOf(s, pat) != -1
  }

  /** `s.replace(pat, '')` with a string pattern: only the FIRST occurrence goes. */
  function RemoveFirst(s: string, pat: string): (r: string)
    ensures Contains(s, pat) ==> |r| == |s| - |pat|
    ensures !Contains(s, pat) ==> r == s
  {
    var i := IndexOf(s, pat);
    if i < 0 then s else s[..i] + s[i + |pat|..]
  }

  /** Removing the first occurrence of a non-empty pattern leaves nothing exactly
      when the string was empty or was the pattern itself. */
  lemma RemoveFirstEmpty(s: string, pat: string)
    requires |pat| > 0
    ensures RemoveFirst(s, pat) == "" <==> s == "" || s == pat
  {
    if s == pat {
      assert OccursAt(s, pat, 0);
    }
    if Contains(s, pat) && RemoveFirst(s, pat) == "" {
      var i := IndexOf(s, pat);
      assert i == 0 && s[..|pat|] == pat;
    }
  }

  function LowerChar(c: char): char {
    if 'A' <= c <= 'Z' then (c as int + 32) as char else c
  }

  /** `s.toLowerCase()` on the ASCII letters. */
  function Lower(s: string): (r: string)
    ensures |r| == |s|
    ensures forall i :: 0 <= i < |s| ==> r[i] == LowerChar(s[i])
  {
    seq(|s|, i requires 0 <= i < |s| => LowerChar(s[i]))
  }

  /** `s.split(sep)[0]`: the text before the first `sep`, or all of `s`. */
  function Before(s: string, sep: char): (r: string)
    ensures sep !in r
    ensures r <= s
    ensures |r| < |s| ==> s[|r|] == sep
  {
    var i := IndexOf(s, [sep]);
    if i < 0 then
      assert forall j :: 0 <= j < |s| ==> s[j] != sep by {
        forall j | 0 <= j < |s| ensures s[j] != sep {
          assert !OccursAt(s, [sep], j);
          assert s[j..j + 1] == [s[j]];
        }
      }
      s
    else
      assert forall j :: 0 <= j < i ==> s[j] != sep by {
        forall j | 0 <= j < i ensures s[j] != sep {
          assert !OccursAt(s, [sep], j);
          assert s[j..j + 1] == [s[j]];
        }
      }
      assert s[i..i + 1] == [sep];
      s[..i]
  }

  /** When the first `sep` of `s` is at `i`, `s.split(sep)[0]` is `s[..i]`. */
  lemma BeforeAt(s: string, sep: char, i: nat)
    requires i < |s| && s[i] == sep && sep !in s[..i]
    ensures Before(s, sep) == s[..i]
  {
  }

  /** A string lacking some character of `pat` does not contain `pat`. */
  lemma MissingChar(s: string, pat: string, c: char)
    requires c in pat && c !in s
    ensures !Contains(s, pat)
  {
  }

  /** `ns.join(',')` for a non-empty list of non-negative integers. */
  function JoinNats(ns: seq<nat>): (s: string)
    requires |ns| > 0
    ensures DigitsOrCommas(s)
  {
    if |ns| == 1 then NatToString(ns[0]) else NatToString(ns[0]) + "," + JoinNats(ns[1..])
  }

  /** Splits a list of digits and commas at every comma and reads each field. */
  function ParseNats(s: string): (ns: seq<nat>)
    requires DigitsOrCommas(s)
    ensures |ns| > 0
    decreases |s|
  {
    var i := IndexOf(s, ",");
    if i < 0 then
      assert AllDigits(s) by {
        forall j | 0 <= j < |s| ensures IsDigit(s[j]) {
          assert !OccursAt(s, ",", j);
          assert s[j..j + 1] == [s[j]];
        }
      }
      [ParseNat(s)]
    else
      assert forall j :: 0 <= j < i ==> s[j] != ',' by {
        forall j | 0 <= j < i ensures s[j] != ',' {
          assert !OccursAt(s, ",", j);
          assert s[j..j + 1] == [s[j]];
        }
      }
      [ParseNat(s[..i])] + ParseNats(s[i + 1..])
  }

  /** In digits followed by a comma, the first comma is the one after the digits. */
  lemma FirstCommaAfterDigits(d: string, rest: string)
    requires AllDigits(d) && |rest| > 0 && rest[0] == ','
    ensures IndexOf(d + rest, ",") == |d|
  {
    var s := d + rest;
    assert s[|d|..|d| + 1] == ",";
    assert OccursAt(s, ",", |d|);
    forall j | 0 <= j < |d| ensures !OccursAt(s, ",", j) {
      assert s[j..j + 1] == [d[j]];
    }
  }

  /** Reading back a comma-joined list of integers gives the list. */
  lemma {:induction false} ParseJoinNats(ns: seq<nat>)
    requires |ns| > 0
    ensures ParseNats(JoinNats(ns)) == ns
  {
    var d := NatToString(ns[0]);
    ParseNatToString(ns[0]);
    if |ns| == 1 {
      assert forall j :: 0 <= j <= |d| ==> !OccursAt(d, ",", j) by {
        forall j | 0 <= j <= |d| ensures !OccursAt(d, ",", j) {
          if j < |d| { assert d[j..j + 1] == [d[j]]; }
        }
      }
    } else {
      var rest := "," + JoinNats(ns[1..]);
      assert JoinNats(ns) == d + rest;
      FirstCommaAfterDigits(d, rest);
      assert (d + rest)[..|d|] == d && (d + rest)[|d| + 1..] == JoinNats(ns[1..]);
      ParseJoinNats(ns[1..]);
    }
  }

  lemma JoinNatsInjective(a: seq<nat>, b: seq<nat>)
    requires |a| > 0 && |b| > 0 && JoinNats(a) == JoinNats(b)
    ensures a == b
  {
    ParseJoinNats(a);
    ParseJoinNats(b);
  }

  /** Equal strings with a common prefix have equal suffixes. */
  lemma PrefixCancel(p: string, a: string, b: string)
    requires p + a == p + b
    ensures a == b
  {
    assert a == (p + a)[|p|..];
    assert b == (p + b)[|p|..];
  }
}
