/** The few java.lang.String and Integer operations the input handling relies
    on, restricted to ASCII: String.trim, String.toUpperCase, String.replace of
    one letter by nothing, String.split for the two patterns "-" and "-?C", and
    Integer.parseInt. */
module Strings {
  import opened Outcomes

  const IntMin: int := -0x8000_0000
  const IntMax: int := 0x7FFF_FFFF

  /** String.trim removes every character whose code is at most U+0020. */
  predicate IsTrimmable(c: char) {
    c <= ' '
  }

  function TrimLeft(s: string): (r: string)
    ensures |r| <= |s|
    ensures r == [] || !IsTrimmable(r[0])
    ensures forall i :: 0 <= i < |s| - |r| ==> IsTrimmable(s[i])
  {
    if s != [] && IsTrimmable(s[0]) then TrimLeft(s[1..]) else s
  }

  /** TrimLeft keeps a suffix; stated apart from TrimLeft so that the shifted
      indices do not feed back into themselves when nothing is trimmed. */
  lemma {:induction false} TrimLeftSuffix(s: string)
    ensures TrimLeft(s) == s[|s| - |TrimLeft(s)|..]
  {
    if s != [] && IsTrimmable(s[0]) {
      TrimLeftSuffix(s[1..]);
      assert s[1..][|s| - 1 - |TrimLeft(s)|..] == s[|s| - |TrimLeft(s)|..];
    }
  }

  /** Text made only of trimmable characters trims to nothing. */
  lemma {:induction false} AllBlankTrimsToEmpty(s: string)
    requires forall i :: 0 <= i < |s| ==> IsTrimmable(s[i])
    ensures TrimLeft(s) == [] && Trim(s) == []
  {
    if s != [] {
      AllBlankTrimsToEmpty(s[1..]);
    }
  }

  function TrimRight(s: string): (r: string)
    ensures |r| <= |s| && forall i :: 0 <= i < |r| ==> r[i] == s[i]
    ensures r == [] || !IsTrimmable(r[|r| - 1])
    ensures forall i :: |r| <= i < |s| ==> IsTrimmable(s[i])
  {
    if s != [] && IsTrimmable(s[|s| - 1]) then TrimRight(s[..|s| - 1]) else s
  }

  function Trim(s: string): (r: string)
    ensures r == [] || (!IsTrimmable(r[0]) && !IsTrimmable(r[|r| - 1]))
  {
    TrimRight(TrimLeft(s))
  }

  /** Every character is one that String.trim removes. */
  predicate AllTrimmable(s: string) {
    forall i :: 0 <= i < |s| ==> IsTrimmable(s[i])
  }

  /** Trimmable padding in front of text that starts visibly is all the
      left trim removes. */
  lemma {:induction false} TrimLeftPadded(left: string, u: string)
    requires AllTrimmable(left)
    requires u == [] || !IsTrimmable(u[0])
    ensures TrimLeft(left + u) == u
  {
    if left != [] {
      assert (left + u)[1..] == left[1..] + u;
      TrimLeftPadded(left[1..], u);
    }
  }

  /** Trimmable padding behind text that ends visibly is all the right trim
      removes. */
  lemma {:induction false} TrimRightPadded(u: string, right: string)
    requires AllTrimmable(right)
    requires u == [] || !IsTrimmable(u[|u| - 1])
    ensures TrimRight(u + right) == u
  {
    if right != [] {
      var v := u + right;
      assert v[..|v| - 1] == u + right[..|right| - 1];
      TrimRightPadded(u, right[..|right| - 1]);
    } else {
      assert u + right == u;
    }
  }

  /** Text bounded by visible characters, with any trimmable padding around
      it, trims back to that text. */
  lemma TrimPadded(left: string, t: string, right: string)
    requires AllTrimmable(left) && AllTrimmable(right)
    requires t != [] && !IsTrimmable(t[0]) && !IsTrimmable(t[|t| - 1])
    ensures Trim(left + t + right) == t
  {
    assert left + t + right == left + (t + right);
    TrimLeftPadded(left, t + right);
    TrimRightPadded(t, right);
  }

  /** A string that starts and ends with a visible character is its own trim. */
  lemma TrimNoop(s: string)
    requires s != [] && !IsTrimmable(s[0]) && !IsTrimmable(s[|s| - 1])
    ensures Trim(s) == s
  {
  }

  function UpperChar(c: char): char {
    if 'a' <= c <= 'z' then (c as int - 'a' as int + 'A' as int) as char else c
  }

  /** String.toUpperCase on ASCII letters; every other character is kept. */
  function ToUpper(s: string): (r: string)
    ensures |r| == |s| && forall i :: 0 <= i < |s| ==> r[i] == UpperChar(s[i])
  {
    if s == [] then [] else [UpperChar(s[0])] + ToUpper(s[1..])
  }

  /** String.replace(c, ""): every occurrence of c removed. */
  function RemoveAll(s: string, c: char): (r: string)
    ensures c !in r && |r| <= |s|
    ensures forall x :: x in r <==> x in s && x != c
  {
    if s == [] then [] else (if s[0] == c then [] else [s[0]]) + RemoveAll(s[1..], c)
  }

  /** Every character other than c is kept as often as it occurs. */
  lemma {:induction false} RemoveAllKeepsCounts(s: string, c: char)
    ensures multiset(RemoveAll(s, c)) == multiset(s)[c := 0]
  {
    if s != [] {
      assert s == [s[0]] + s[1..];
      RemoveAllKeepsCounts(s[1..], c);
    }
  }

  /** Text without the letter is left as it is. */
  lemma {:induction false} RemoveAllAbsent(s: string, c: char)
    requires c !in s
    ensures RemoveAll(s, c) == s
  {
    if s != [] {
      assert s[0] != c;
      assert c !in s[1..];
      RemoveAllAbsent(s[1..], c);
    }
  }

  /** Removing a letter that occurs only in front leaves the rest. */
  lemma RemoveLeading(s: string, u: string, c: char)
    requires s == [c] + u && c !in u
    ensures RemoveAll(s, c) == u
  {
    assert s[1..] == u;
    RemoveAllAbsent(u, c);
  }

  /** Removal works piecewise, so the kept characters stay in their order. */
  lemma {:induction false} RemoveAllConcat(s: string, t: string, c: char)
    ensures RemoveAll(s + t, c) == RemoveAll(s, c) + RemoveAll(t, c)
  {
    if s != [] {
      assert (s + t)[1..] == s[1..] + t;
      RemoveAllConcat(s[1..], t, c);
    } else {
      assert s + t == t;
    }
  }

  /** The two separators the source splits on. */
  datatype Separator =
    | Dash    // the regular expression "-"
    | DashC   // the regular expression "-?C"

  /** Length of the separator match that starts at index i, or 0 if none does.
      For "-?C" a dash counts only when a 'C' follows it. */
  function MatchAt(s: string, i: nat, sep: Separator): (k: nat)
    requires i < |s|
    ensures i + k <= |s| && k <= 2
  {
    match sep
    case Dash => if s[i] == '-' then 1 else 0
    case DashC =>
      if s[i] == '-' && i + 1 < |s| && s[i + 1] == 'C' then 2
      else if s[i] == 'C' then 1
      else 0
  }

  /** Fields of s[start..], scanning for the leftmost match from index i on. */
  function SplitFrom(s: string, start: nat, i: nat, sep: Separator): (fs: seq<string>)
    requires start <= i <= |s|
    ensures |fs| >= 1
    decreases |s| - i
  {
    if i == |s| then [s[start..]]
    else
      var k := MatchAt(s, i, sep);
      if k == 0 then SplitFrom(s, start, i + 1, sep)
      else [s[start..i]] + SplitFrom(s, i + k, i + k, sep)
  }

  function DropTrailingEmpty(fs: seq<string>): (r: seq<string>)
    ensures |r| <= |fs| && forall i :: 0 <= i < |r| ==> r[i] == fs[i]
    ensures r == [] || r[|r| - 1] != []
  {
    if fs != [] && fs[|fs| - 1] == [] then DropTrailingEmpty(fs[..|fs| - 1]) else fs
  }

  /** String.split(regex) with limit 0: the string itself when nothing matches,
      otherwise the fields between matches with trailing empty fields removed. */
  function Split(s: string, sep: Separator): seq<string> {
    var raw := SplitFrom(s, 0, 0, sep);
    if |raw| == 1 then raw else DropTrailingEmpty(raw)
  }

  predicate IsDigit(c: char) {
    '0' <= c <= '9'
  }

  function DigitValue(c: char): int
    requires IsDigit(c)
  {
    c as int - '0' as int
  }

  function DigitChar(n: int): (c: char)
    requires 0 <= n <= 9
    ensures IsDigit(c) && DigitValue(c) == n
  {
    ('0' as int + n) as char
  }

  /** Every character a decimal digit; recursive from the end, the way
      DigitsValue reads the numeral. */
  predicate AllDigits(s: string) {
    s == [] || (AllDigits(s[..|s| - 1]) && IsDigit(s[|s| - 1]))
  }

  /** Value of a decimal numeral, most significant digit first. */
  function DigitsValue(s: string): (v: nat)
    requires AllDigits(s)
  {
    if s == [] then 0 else DigitsValue(s[..|s| - 1]) * 10 + DigitValue(s[|s| - 1])
  }

  /** Integer.parseInt over ASCII: an optional sign followed by at least one
      digit, whose value fits in a 32-bit int. */
  function ParseInt(s: string): (r: Option<int>)
    ensures r.Some? ==> IntMin <= r.value <= IntMax
  {
    if s == [] then None
    else
      var negative := s[0] == '-';
      var digits := if s[0] == '-' || s[0] == '+' then s[1..] else s;
      if digits == [] || !AllDigits(digits) then None
      else
        var n: int := DigitsValue(digits);
        var v := if negative then -n else n;
        if IntMin <= v <= IntMax then Some(v) else None
  }

  /** n zero digits. */
  function Zeros(n: nat): (z: string)
    ensures |z| == n && forall i :: 0 <= i < n ==> z[i] == '0'
  {
    if n == 0 then [] else Zeros(n - 1) + ['0']
  }

  /** Leading zeros are digits that add nothing to the value. */
  lemma {:induction false} ZerosValue(n: nat)
    ensures AllDigits(Zeros(n)) && DigitsValue(Zeros(n)) == 0
  {
    if n > 0 {
      ZerosValue(n - 1);
      assert Zeros(n)[..n - 1] == Zeros(n - 1);
    }
  }

  /** A digit after any number of zeros, with a '+' sign or none, parses to
      the digit's value; with a '-' sign, to its negation. */
  lemma ParseZeroPadded(zeros: nat, c: char)
    requires IsDigit(c)
    ensures ParseInt(Zeros(zeros) + [c]) == Some(DigitValue(c))
    ensures ParseInt(['+'] + Zeros(zeros) + [c]) == Some(DigitValue(c))
    ensures ParseInt(['-'] + Zeros(zeros) + [c]) == Some(-DigitValue(c))
  {
    var d := Zeros(zeros) + [c];
    ZeroPaddedDigits(zeros, c, d);
    ParseUnsigned(d, DigitValue(c));
    ParseSigned(['+'] + Zeros(zeros) + [c], d, '+', DigitValue(c));
    ParseSigned(['-'] + Zeros(zeros) + [c], d, '-', -DigitValue(c));
  }

  /** Zeros then a digit form a numeral worth the digit. */
  lemma ZeroPaddedDigits(zeros: nat, c: char, d: string)
    requires IsDigit(c) && d == Zeros(zeros) + [c]
    ensures d != [] && IsDigit(d[0]) && AllDigits(d) && DigitsValue(d) == DigitValue(c)
  {
    ZerosValue(zeros);
    assert d[..|d| - 1] == Zeros(zeros);
    assert d[0] == '0' || d[0] == c;
  }

  /** A numeral that starts with a digit parses to its value. */
  lemma ParseUnsigned(d: string, v: int)
    requires d != [] && IsDigit(d[0]) && AllDigits(d) && DigitsValue(d) == v <= 9
    ensures ParseInt(d) == Some(v)
  {
  }

  /** A sign before such a numeral keeps or negates its value. */
  lemma ParseSigned(s: string, d: string, sign: char, v: int)
    requires d != [] && AllDigits(d) && DigitsValue(d) <= 9
    requires sign == '+' || sign == '-'
    requires s == [sign] + d
    requires v == (if sign == '-' then -1 else 1) * DigitsValue(d)
    ensures ParseInt(s) == Some(v)
  {
    assert s[1..] == d && s[0] == sign;
  }

  /** One decimal digit parses to its value. */
  lemma ParseOneDigit(c: char)
    requires IsDigit(c)
    ensures ParseInt([c]) == Some(DigitValue(c))
  {
    assert AllDigits([c]);
    assert [c][..0] == [];
    assert DigitsValue([c]) == DigitValue(c);
  }
}
