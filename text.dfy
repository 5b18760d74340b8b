/** The string operations the scripts rely on, written the way Python
    performs them: `str.split` with an explicit separator, `str(int)` and
    `int(str)`. */
module Text {
  import opened Common

  /** Splitting at a separator: the pieces between its occurrences, empty ones included. */
  function Split(s: string, d: char): (r: seq<string>)
    ensures |r| >= 1
  {
    if s == [] then [[]]
    else
      var rest := Split(s[1..], d);
      if s[0] == d then [[]] + rest
      else [[s[0]] + rest[0]] + rest[1..]
  }

  /** d.join(parts) */
  function Join(parts: seq<string>, d: char): string
    requires |parts| >= 1
  {
    if |parts| == 1 then parts[0] else parts[0] + [d] + Join(parts[1..], d)
  }

  lemma {:induction false} SplitPiecesHaveNoSeparator(s: string, d: char)
    ensures forall k :: 0 <= k < |Split(s, d)| ==> d !in Split(s, d)[k]
  {
    if s != [] {
      SplitPiecesHaveNoSeparator(s[1..], d);
    }
  }

  /** There is one more piece than there are separators. */
  lemma {:induction false} SplitLength(s: string, d: char)
    ensures |Split(s, d)| == multiset(s)[d] + 1
  {
    if s != [] {
      SplitLength(s[1..], d);
      assert s == [s[0]] + s[1..];
    }
  }

  /** The first piece is a prefix of the string. */
  lemma {:induction false} SplitHeadIsPrefix(s: string, d: char)
    ensures Split(s, d)[0] <= s
  {
    if s != [] && s[0] != d {
      SplitHeadIsPrefix(s[1..], d);
    }
  }

  /** Joining the pieces again gives back the string. */
  lemma {:induction false} JoinSplit(s: string, d: char)
    ensures Join(Split(s, d), d) == s
  {
    if s != [] {
      var rest := Split(s[1..], d);
      JoinSplit(s[1..], d);
      if s[0] != d {
        if |rest| > 1 {
          assert Split(s, d)[1..] == rest[1..];
        }
      }
    }
  }

  /** Splitting a join of separator-free pieces gives back the pieces. */
  lemma {:induction false} SplitJoin(parts: seq<string>, d: char)
    requires |parts| >= 1
    requires forall k :: 0 <= k < |parts| ==> d !in parts[k]
    ensures Split(Join(parts, d), d) == parts
  {
    if |parts| == 1 {
      SplitWithoutSeparator(parts[0], d);
    } else {
      var rest := parts[1..];
      assert forall k :: 0 <= k < |rest| ==> d !in rest[k] by {
        forall k | 0 <= k < |rest| ensures d !in rest[k] { assert rest[k] == parts[k + 1]; }
      }
      SplitJoin(rest, d);
      assert Join(parts, d) == parts[0] + [d] + Join(rest, d);
      SplitAfterPlainPrefix(parts[0], Join(rest, d), d);
      assert Split(Join(parts, d), d) == [parts[0]] + rest;
      assert parts == [parts[0]] + rest;
    }
  }

  lemma {:induction false} SplitWithoutSeparator(s: string, d: char)
    requires d !in s
    ensures Split(s, d) == [s]
  {
    if s != [] {
      SplitWithoutSeparator(s[1..], d);
      assert s == [s[0]] + s[1..];
    }
  }

  lemma {:induction false} SplitAfterPlainPrefix(a: string, b: string, d: char)
    requires d !in a
    ensures Split(a + [d] + b, d) == [a] + Split(b, d)
  {
    if a == [] {
      assert a + [d] + b == [d] + b;
      assert ([d] + b)[1..] == b;
    } else {
      SplitAfterPlainPrefix(a[1..], b, d);
      assert (a + [d] + b)[1..] == a[1..] + [d] + b;
      assert a == [a[0]] + a[1..];
    }
  }

  // ---- str(int) ----

  predicate IsDigit(c: char) { '0' <= c <= '9' }

  function DigitChar(k: nat): (c: char)
    requires k < 10
    ensures IsDigit(c) && c as int - '0' as int == k
  {
    ('0' as int + k) as char
  }

  /** Decimal printing of a natural number: digits, no leading zero. */
  function NatToString(n: nat): (r: string)
    ensures |r| >= 1 && forall k :: 0 <= k < |r| ==> IsDigit(r[k])
  {
    if n < 10 then [DigitChar(n)] else NatToString(n / 10) + [DigitChar(n % 10)]
  }

  /** Decimal printing of an integer, with a leading minus sign when negative. */
  function IntToString(n: int): (r: string)
    ensures |r| >= 1 && (r[0] == '-' <==> n < 0)
  {
    if n < 0 then "-" + NatToString(-n) else NatToString(n)
  }

  // ---- int(str) ----

  /** The characters Python's integer parsing skips around a number: tab, line feed,
      vertical tab, form feed, carriage return and space. */
  predicate IsSpace(c: char) { 9 <= c as int <= 13 || c as int == 32 }

  function TrimLeft(s: string): string
  {
    if s != [] && IsSpace(s[0]) then TrimLeft(s[1..]) else s
  }

  function TrimRight(s: string): (r: string)
  {
    if s != [] && IsSpace(s[|s| - 1]) then TrimRight(s[..|s| - 1]) else s
  }

  /** Decimal digits, where a single underscore may stand between two digits. */
  predicate ValidDigits(t: string)
  {
    |t| > 0 && IsDigit(t[0]) && IsDigit(t[|t| - 1]) &&
    (forall k :: 0 <= k < |t| ==> IsDigit(t[k]) || t[k] == '_') &&
    (forall k :: 0 <= k < |t| - 1 ==> t[k] == '_' ==> IsDigit(t[k + 1]))
  }

  /** The value of the digits of t, underscores skipped. */
  function DigitsValue(t: string): nat
  {
    if t == [] then 0
    else if IsDigit(t[|t| - 1]) then
      DigitsValue(t[..|t| - 1]) * 10 + (t[|t| - 1] as int - '0' as int)
    else DigitsValue(t[..|t| - 1])
  }

  /** Python's base-10 integer parsing: None where it raises ValueError. */
  function ParseInt(s: string): Option<int>
  {
    var t := TrimRight(TrimLeft(s));
    if |t| > 0 && (t[0] == '+' || t[0] == '-') then
      if ValidDigits(t[1..]) then
        Some(if t[0] == '-' then -(DigitsValue(t[1..]) as int) else DigitsValue(t[1..]))
      else None
    else if ValidDigits(t) then Some(DigitsValue(t))
    else None
  }

  lemma {:induction false} DigitsValueOfNatToString(n: nat)
    ensures DigitsValue(NatToString(n)) == n
  {
    var r := NatToString(n);
    if n >= 10 {
      DigitsValueOfNatToString(n / 10);
      assert r[..|r| - 1] == NatToString(n / 10);
    } else {
      assert r[..|r| - 1] == [];
    }
  }

  /** Nothing is stripped from a text that neither starts nor ends with a space. */
  lemma TrimNothing(s: string)
    requires s != [] && !IsSpace(s[0]) && !IsSpace(s[|s| - 1])
    ensures TrimRight(TrimLeft(s)) == s
  {
    assert TrimLeft(s) == s;
  }

  /** What str prints is a valid digit string for int(). */
  lemma NatToStringValid(n: nat)
    ensures ValidDigits(NatToString(n))
  {
    var s := NatToString(n);
    assert IsDigit(s[0]) && IsDigit(s[|s| - 1]);
  }

  /** A string of digits passes through int() unchanged in value. */
  lemma ParseNatToString(n: nat)
    ensures ParseInt(NatToString(n)) == Some(n)
  {
    var s := NatToString(n);
    TrimNothing(s);
    NatToStringValid(n);
    DigitsValueOfNatToString(n);
  }

  /** A minus sign before valid digits negates their value. */
  lemma ParseNegative(d: string)
    requires ValidDigits(d)
    ensures ParseInt("-" + d) == Some(-(DigitsValue(d) as int))
  {
    var s := "-" + d;
    assert s[|s| - 1] == d[|d| - 1];
    TrimNothing(s);
    assert s[1..] == d;
  }

  /** Parsing what printing produces gives back the integer. */
  lemma ParseIntToString(n: int)
    ensures ParseInt(IntToString(n)) == Some(n)
  {
    if n < 0 {
      assert IntToString(n) == "-" + NatToString(-n);
      ParseNegativeNat(-n);
    } else {
      ParseNatToString(n);
      assert IntToString(n) == NatToString(n);
    }
  }

  lemma ParseNegativeNat(m: nat)
    ensures ParseInt("-" + NatToString(m)) == Some(-(m as int))
  {
    NatToStringValid(m);
    DigitsValueOfNatToString(m);
    ParseNegative(NatToString(m));
  }

  /** str is one-to-one on integers, so numbers written into a path stay apart. */
  lemma IntToStringInjective(m: int, n: int)
    requires IntToString(m) == IntToString(n)
    ensures m == n
  {
    ParseIntToString(m);
    ParseIntToString(n);
  }

  /** Three decimal digits parse to their value, leading zeros included. */
  lemma ParseThreeDigits(s: string)
    requires |s| == 3 && IsDigit(s[0]) && IsDigit(s[1]) && IsDigit(s[2])
    ensures ParseInt(s) == Some(100 * (s[0] as int - '0' as int)
                                + 10 * (s[1] as int - '0' as int)
                                + (s[2] as int - '0' as int))
  {
    assert TrimLeft(s) == s;
    assert TrimRight(s) == s;
    assert ValidDigits(s);
    assert s[..2][..1] == s[..1];
    assert s[..1][..0] == [];
    assert DigitsValue(s[..1]) == s[0] as int - '0' as int;
    assert DigitsValue(s[..2]) == 10 * (s[0] as int - '0' as int) + (s[1] as int - '0' as int);
  }

  lemma {:induction false} TrimLeftKeeps(s: string, c: char)
    requires c in s && !IsSpace(c)
    ensures c in TrimLeft(s)
  {
    if s != [] && IsSpace(s[0]) {
      TrimLeftKeeps(s[1..], c);
    }
  }

  lemma {:induction false} TrimRightKeeps(s: string, c: char)
    requires c in s && !IsSpace(c)
    ensures c in TrimRight(s)
  {
    if s != [] && IsSpace(s[|s| - 1]) {
      assert s == s[..|s| - 1] + [s[|s| - 1]];
      TrimRightKeeps(s[..|s| - 1], c);
    }
  }

  /** A character that is no digit, underscore, sign or space makes int() fail. */
  lemma ParseIntRejects(s: string, c: char)
    requires c in s && !IsDigit(c) && c != '_' && c != '+' && c != '-' && !IsSpace(c)
    ensures ParseInt(s) == None
  {
    TrimLeftKeeps(s, c);
    TrimRightKeeps(TrimLeft(s), c);
    var t := TrimRight(TrimLeft(s));
    if |t| > 0 && (t[0] == '+' || t[0] == '-') {
      assert c in t[1..];
    }
  }

  /** A space, tab or line break before a number is skipped. */
  lemma ParseIntSkipsLeadingSpace(c: char, s: string)
    requires IsSpace(c)
    ensures ParseInt([c] + s) == ParseInt(s)
  {
    assert ([c] + s)[1..] == s;
  }

  /** The information separators U+001C to U+001F are not skipped: a text starting
      with one is never a number. */
  lemma ParseIntRejectsSeparator(c: char, s: string)
    requires 28 <= c as int <= 31
    ensures ParseInt([c] + s) == None
  {
    assert ([c] + s)[0] == c;
    ParseIntRejects([c] + s, c);
  }
}
