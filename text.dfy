/** The text the order messages are made of: JavaScript's `String(n)` for integers,
    and messages as lines joined by newlines. */
module Text {
  import opened Model

  predicate IsDigit(c: char) {
    '0' <= c <= '9'
  }

  predicate AllDigits(s: string) {
    forall i :: 0 <= i < |s| ==> IsDigit(s[i])
  }

  function DigitValue(c: char): (d: nat)
    requires IsDigit(c)
    ensures d < 10
  {
    c as int - '0' as int
  }

  function DigitChar(d: nat): (c: char)
    requires d < 10
    ensures IsDigit(c) && DigitValue(c) == d
  {
    ('0' as int + d) as char
  }

  /** Decimal digits of n, most significant first, without leading zeros. */
  function NatToString(n: nat): (s: string)
    ensures |s| >= 1 && AllDigits(s)
    ensures s[0] == '0' ==> n == 0
    decreases n
  {
    if n < 10 then [DigitChar(n)] else NatToString(n / 10) + [DigitChar(n % 10)]
  }

  /** The value of a string of decimal digits. */
  function ParseNat(s: string): nat
    requires AllDigits(s)
    decreases |s|
  {
    if s == [] then 0 else 10 * ParseNat(s[..|s| - 1]) + DigitValue(s[|s| - 1])
  }

  /** `${n}` in a template string, for an integer n. */
  function IntToString(n: int): (s: string)
    ensures |s| >= 1
    ensures s[0] == '-' <==> n < 0
  {
    if n < 0 then "-" + NatToString(-n) else NatToString(n)
  }

  /** Reads back what IntToString writes; None for any other text. */
  function ParseInt(s: string): Option<int> {
    if |s| >= 2 && s[0] == '-' && AllDigits(s[1..]) then Some(-(ParseNat(s[1..]) as int))
    else if |s| >= 1 && AllDigits(s) then Some(ParseNat(s))
    else None
  }

  lemma {:induction false} ParseNatToString(n: nat)
    ensures ParseNat(NatToString(n)) == n
  {
    if n >= 10 {
      var s := NatToString(n);
      assert s[..|s| - 1] == NatToString(n / 10);
      ParseNatToString(n / 10);
    }
  }

  /** Every integer printed in a message can be read back unchanged. */
  lemma ParseIntToString(n: int)
    ensures ParseInt(IntToString(n)) == Some(n)
  {
    var s := IntToString(n);
    if n < 0 {
      var digits := NatToString(-n);
      assert s[1..] == digits;
      ParseNatToString(-n);
    } else {
      assert IsDigit(s[0]);
      ParseNatToString(n);
    }
  }

  /** Distinct amounts print as distinct text. */
  lemma IntToStringInjective(a: int, b: int)
    ensures IntToString(a) == IntToString(b) ==> a == b
  {
    ParseIntToString(a);
    ParseIntToString(b);
  }

  /** `s || fallback` on strings: the empty string is falsy. */
  function OrElse(s: string, fallback: string): (r: string)
    ensures s == "" ==> r == fallback
    ensures s != "" ==> r == s
  {
    if s == "" then fallback else s
  }

  /** A message as a template string with `\n` builds it from its lines. */
  function Join(lines: seq<string>): string {
    if |lines| == 0 then ""
    else if |lines| == 1 then lines[0]
    else lines[0] + "\n" + Join(lines[1..])
  }

  predicate StartsWith(s: string, prefix: string) {
    |prefix| <= |s| && s[..|prefix|] == prefix
  }

  predicate EndsWith(s: string, suffix: string) {
    |suffix| <= |s| && s[|s| - |suffix|..] == suffix
  }

  /** A joined message ends with its last line. */
  lemma {:induction false} JoinEndsWithLast(lines: seq<string>)
    requires |lines| >= 1
    ensures EndsWith(Join(lines), lines[|lines| - 1])
  {
    if |lines| > 1 {
      var last := lines[|lines| - 1];
      var tail := Join(lines[1..]);
      JoinEndsWithLast(lines[1..]);
      var s := Join(lines);
      assert s == (lines[0] + "\n") + tail;
      assert s[|s| - |last|..] == tail[|tail| - |last|..];
    }
  }

  /** A joined message of two or more lines starts with its first line and a newline. */
  lemma JoinStartsWithFirst(lines: seq<string>)
    requires |lines| >= 2
    ensures StartsWith(Join(lines), lines[0] + "\n")
  {
    var s := Join(lines);
    assert s == (lines[0] + "\n") + Join(lines[1..]);
  }

  predicate NoNewline(s: string) {
    '\n' !in s
  }

  /** Printed numbers never break a message line. */
  lemma NumbersHaveNoNewline(n: int)
    ensures n >= 0 ==> NoNewline(NatToString(n))
    ensures NoNewline(IntToString(n))
  {
  }

  /** Index of the first newline of s, or |s| when it has none. */
  function NewlineIndex(s: string): (i: nat)
    ensures i <= |s|
    ensures i < |s| ==> s[i] == '\n'
    ensures forall j :: 0 <= j < i ==> s[j] != '\n'
  {
    if s == [] || s[0] == '\n' then 0 else 1 + NewlineIndex(s[1..])
  }

  /** `s.split("\n")` */
  function Split(s: string): (lines: seq<string>)
    ensures |lines| >= 1
    decreases |s|
  {
    var i := NewlineIndex(s);
    if i == |s| then [s] else [s[..i]] + Split(s[i + 1..])
  }

  /** A message whose lines hold no newline of their own splits back into those lines. */
  lemma {:induction false} SplitJoin(lines: seq<string>)
    requires |lines| >= 1
    requires forall k :: 0 <= k < |lines| ==> NoNewline(lines[k])
    ensures Split(Join(lines)) == lines
  {
    var l0 := lines[0];
    if |lines| > 1 {
      var rest := Join(lines[1..]);
      var s := Join(lines);
      assert s == l0 + "\n" + rest;
      assert s[|l0|] == '\n';
      forall j | 0 <= j < |l0|
        ensures s[j] != '\n'
      {
        assert s[j] == l0[j] && l0[j] in l0;
      }
      var i := NewlineIndex(s);
      assert i == |l0|;
      assert s[..i] == l0;
      assert s[i + 1..] == rest;
      SplitJoin(lines[1..]);
    }
  }
}
