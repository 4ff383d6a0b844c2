/** Signal-safe formatting of a long in a base from 2 to 36. */
module SioFormat {
  import opened CStrings

  function DigitChar(d: nat): char
    requires d < 36
  {
    if d < 10 then '0' + d as char else 'a' + (d - 10) as char
  }

  function DigitValue(c: char): (d: int) {
    if '0' <= c <= '9' then (c - '0') as int
    else if 'a' <= c <= 'z' then (c - 'a') as int + 10
    else -1
  }

  lemma DivideBy(n: nat, b: nat)
    requires b >= 2
    ensures 0 <= n % b < b && n / b * b + n % b == n
    ensures if n < b then n / b == 0 && n % b == n else 1 <= n / b < n
  {
  }

  /** The digits of n, least significant first. */
  function Digits(n: nat, b: nat): (s: string)
    requires 2 <= b <= 36
    ensures |s| >= 1
    decreases n
  {
    DivideBy(n, b);
    if n < b then [DigitChar(n)] else [DigitChar(n % b)] + Digits(n / b, b)
  }

  function Reverse(s: string): (r: string)
    ensures |r| == |s|
    ensures forall i :: 0 <= i < |s| ==> r[i] == s[|s| - 1 - i]
  {
    seq(|s|, i requires 0 <= i < |s| => s[|s| - 1 - i])
  }

  /** The text of v: a minus sign if negative, and the digits from the most significant. */
  function Text(v: int, b: nat): string
    requires 2 <= b <= 36
  {
    Reverse(Digits(if v < 0 then -v else v, b) + if v < 0 then "-" else "")
  }

  /** Reading a text back, digit by digit from the left. */
  function ReadDigits(s: string, b: nat): int {
    if s == "" then 0 else ReadDigits(s[..|s| - 1], b) * b + DigitValue(s[|s| - 1])
  }

  function Read(s: string, b: nat): int {
    if s != "" && s[0] == '-' then -ReadDigits(s[1..], b) else ReadDigits(s, b)
  }

  lemma DigitBack(d: nat)
    requires d < 36
    ensures DigitValue(DigitChar(d)) == d && DigitChar(d) != '-' && DigitChar(d) != NUL
    ensures DigitChar(d) == '0' <==> d == 0
  {
  }

  /** The digits are those of the usual notation, in order. */
  lemma DigitTable(d: nat)
    requires d < 36
    ensures DigitChar(d) == "0123456789abcdefghijklmnopqrstuvwxyz"[d]
    ensures DigitValue("0123456789abcdefghijklmnopqrstuvwxyz"[d]) == d
  {
  }

  /** The first digit, and the others. */
  lemma SplitDigits(n: nat, b: nat)
    requires 2 <= b <= 36
    ensures 0 <= n % b < 36 && n / b >= 0
    ensures Digits(n, b) == [DigitChar(n % b)] + if n / b == 0 then "" else Digits(n / b, b)
    ensures n / b == 0 ==> n % b == n
  {
    DivideBy(n, b);
  }

  lemma ReverseCons(c: char, s: string)
    ensures Reverse([c] + s) == Reverse(s) + [c]
  {
  }

  lemma {:induction false} DigitsBack(n: nat, b: nat)
    requires 2 <= b <= 36
    ensures ReadDigits(Reverse(Digits(n, b)), b) == n
    ensures forall i :: 0 <= i < |Digits(n, b)| ==> Digits(n, b)[i] != '-' && Digits(n, b)[i] != NUL
    decreases n
  {
    SplitDigits(n, b);
    DivideBy(n, b);
    var q, c := n / b, DigitChar(n % b);
    DigitBack(n % b);
    hide Digits, DigitChar, DigitValue, Reverse;
    if q == 0 {
      ReadOne(c, b);
    } else {
      DigitsBack(q, b);
      ReverseCons(c, Digits(q, b));
      ReadMore(Reverse(Digits(q, b)), c, b);
    }
  }

  lemma ReadOne(c: char, b: nat)
    ensures Reverse([c] + "") == [c] && ReadDigits([c], b) == DigitValue(c)
  {
    assert ReadDigits([c][..0], b) == 0;
  }

  lemma ReadMore(r: string, c: char, b: nat)
    ensures ReadDigits(r + [c], b) == ReadDigits(r, b) * b + DigitValue(c)
  {
    assert (r + [c])[..|r|] == r;
  }

  /** Round trip: the text of v reads back as v, for every v and every base. */
  lemma RoundTrip(v: int, b: nat)
    requires 2 <= b <= 36
    ensures Read(Text(v, b), b) == v
  {
    var n := if v < 0 then -v else v;
    var d := Digits(n, b);
    DigitsBack(n, b);
    if v < 0 {
      assert Text(v, b) == "-" + Reverse(d);
      assert Text(v, b)[1..] == Reverse(d);
    } else {
      assert d + "" == d;
      assert Text(v, b)[0] == d[|d| - 1];
    }
  }

  /** Different numbers have different texts. */
  lemma TextIsInjective(v: int, u: int, b: nat)
    requires 2 <= b <= 36 && Text(v, b) == Text(u, b)
    ensures v == u
  {
    RoundTrip(v, b);
    RoundTrip(u, b);
  }

  lemma {:induction false} TopDigit(n: nat, b: nat)
    requires 2 <= b <= 36 && n > 0
    ensures Digits(n, b)[|Digits(n, b)| - 1] != '0'
    decreases n
  {
    SplitDigits(n, b);
    DivideBy(n, b);
    DigitBack(n % b);
    var q, c := n / b, DigitChar(n % b);
    hide Digits, DigitChar;
    if q > 0 {
      TopDigit(q, b);
      assert Digits(n, b) == [c] + Digits(q, b);
    }
  }

  /** There are no leading zeros: after the sign comes a zero only for zero itself. */
  lemma NoLeadingZero(v: int, b: nat)
    requires 2 <= b <= 36
    ensures var s := Text(v, b);
            && |s| > (if v < 0 then 1 else 0)
            && (s[if v < 0 then 1 else 0] == '0' <==> v == 0)
            && (v == 0 ==> s == "0") && (v < 0 <==> s[0] == '-')
  {
    var n := if v < 0 then -v else v;
    var d := Digits(n, b);
    DigitsBack(n, b);
    if n > 0 { TopDigit(n, b); }
    if v < 0 {
      assert Text(v, b) == "-" + Reverse(d);
    } else {
      assert d + "" == d;
    }
  }

  function Pow2(k: nat): nat {
    if k == 0 then 1 else 2 * Pow2(k - 1)
  }

  lemma {:induction false} DigitCount(n: nat, b: nat, k: nat)
    requires 2 <= b <= 36 && k >= 1 && n < Pow2(k)
    ensures |Digits(n, b)| <= k
    decreases n
  {
    SplitDigits(n, b);
    DivideBy(n, b);
    HalfOrLess(n, b);
    var q := n / b;
    if q > 0 {
      Pow2Double(k - 1);
      Pow2Zero();
      hide Digits, DigitChar, Pow2;
      DigitCount(q, b, k - 1);
    }
  }

  lemma HalfOrLess(n: nat, b: nat)
    requires b >= 2
    ensures 2 * (n / b) <= n
  {
    DivideBy(n, b);
    var q, m: nat := n / b, b - 2;
    assert q * m >= 0;
    assert q * b == q * (m + 2) == q * m + 2 * q;
  }

  lemma Pow2Zero()
    ensures Pow2(0) == 1
  {
  }

  const LONG_MAX: int := 0x7fff_ffff_ffff_ffff

  /** Any long but the least, with its terminating zero, fits 65 bytes. */
  lemma TextFits(v: int, b: nat)
    requires 2 <= b <= 36 && -LONG_MAX <= v <= LONG_MAX
    ensures |Text(v, b)| + 1 <= 65
  {
    Pow2Is();
    DigitCount(if v < 0 then -v else v, b, 63);
  }

  lemma Pow2Is()
    ensures Pow2(63) == LONG_MAX + 1
  {
    Pow2Four();
    hide Pow2;
    Pow2Add(4, 4);
    Pow2Add(8, 8);
    Pow2Add(16, 16);
    Pow2Add(32, 32);
    Pow2Double(63);
  }

  lemma Pow2Four()
    ensures Pow2(4) == 16
  {
    assert Pow2(2) == 4;
  }

  lemma Pow2Double(k: nat)
    ensures Pow2(k + 1) == 2 * Pow2(k)
  {
  }

  lemma {:induction false} Pow2Add(a: nat, b: nat)
    ensures Pow2(a + b) == Pow2(a) * Pow2(b)
  {
    if b > 0 { Pow2Add(a, b - 1); }
  }

  // ---- the functions in place ----

  /** The C string in s is t. */
  ghost predicate Holds(s: array<char>, t: string)
    reads s
  {
    |t| < s.Length && s[..|t|] == t && s[|t|] == NUL && NoNul(t)
  }

  lemma NoNulSign(t: string)
    requires NoNul(t)
    ensures NoNul(t + "-") && NoNul(t + "")
  {
  }

  method SioStrlen(s: array<char>, ghost t: string) returns (i: nat)
    requires Holds(s, t)
    ensures i == |t|
  {
    i := 0;
    while s[i] != NUL
      invariant i <= |t|
      decreases |t| - i
    {
      assert s[..|t|][i] == t[i];
      i := i + 1;
    }
  }

  method SioReverse(s: array<char>, ghost t: string)
    requires Holds(s, t)
    modifies s
    ensures Holds(s, Reverse(t)) && s[|t|..] == old(s[|t|..])
  {
    var n := SioStrlen(s, t);
    var i: int, j: int := 0, n - 1;
    while i < j
      invariant 0 <= i <= j + 2 && i + j == n - 1 && s[n] == NUL
      invariant forall k :: 0 <= k < i ==> s[k] == t[n - 1 - k] && s[n - 1 - k] == t[k]
      invariant forall k :: i <= k <= j ==> s[k] == t[k]
      invariant s[n..] == old(s[n..])
    {
      var c := s[i];
      s[i] := s[j];
      s[j] := c;
      i := i + 1;
      j := j - 1;
    }
    assert forall k :: 0 <= k < n ==> s[k] == t[n - 1 - k];
    assert s[..n] == Reverse(t);
  }

  /** The do-while loop: the digits of n from the least significant. */
  method PutDigits(n: nat, s: array<char>, b: nat) returns (i: nat)
    requires 2 <= b <= 36 && s.Length >= |Digits(n, b)|
    modifies s
    ensures i == |Digits(n, b)| && s[..i] == Digits(n, b)
  {
    ghost var d := Digits(n, b);
    SplitDigits(n, b);
    hide Digits, DigitChar;
    var rest := n;
    // The first turn of the loop.
    s[0] := DigitChar(rest % b);
    i := 1;
    rest := rest / b;
    while rest > 0
      invariant 1 <= i <= |d| <= s.Length && rest >= 0
      invariant d == s[..i] + if rest == 0 then "" else Digits(rest, b)
      decreases rest
    {
      SplitDigits(rest, b);
      DivideBy(rest, b);
      ghost var before := s[..i];
      s[i] := DigitChar(rest % b);
      assert s[..i + 1] == before + [s[i]];
      i := i + 1;
      rest := rest / b;
    }
  }

  /** sio_ltoa: the text of v, for every long but the least. */
  method SioLtoa(v: int, s: array<char>, b: nat)
    requires 2 <= b <= 36 && -LONG_MAX <= v <= LONG_MAX && s.Length >= 65
    modifies s
    ensures Holds(s, Text(v, b))
  {
    var neg := v < 0;
    var n := if neg then -v else v;
    ghost var d := Digits(n, b);
    assert |d| <= 63 by {
      Pow2Is();
      DigitCount(n, b, 63);
    }
    assert NoNul(d) by { DigitsBack(n, b); }
    hide Digits, NoNul;
    var i := PutDigits(n, s, b);
    ghost var t := d + if neg then "-" else "";
    NoNulSign(d);
    if neg {
      s[i] := '-';
      i := i + 1;
    }
    s[i] := NUL;
    assert s[..i] == t;
    SioReverse(s, t);
  }
}
