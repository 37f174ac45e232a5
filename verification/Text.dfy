/** Strings the store builds: numbered ids such as `s12`, and idempotency keys. */
module Text {

  /** Decimal digits of n, without a sign. */
  function Digits(n: nat): (s: string)
    ensures |s| >= 1 && forall i | 0 <= i < |s| :: '0' <= s[i] <= '9'
  {
    var last := [('0' as int + n % 10) as char];
    if n < 10 then last else Digits(n / 10) + last
  }

  function Decimal(i: int): string {
    if i < 0 then "-" + Digits(-i) else Digits(i)
  }

  lemma {:induction false} DigitsInjective(m: nat, n: nat)
    requires Digits(m) == Digits(n)
    ensures m == n
  {
    var s, t := Digits(m), Digits(n);
    assert s[|s| - 1] == ('0' as int + m % 10) as char;
    assert t[|t| - 1] == ('0' as int + n % 10) as char;
    assert m % 10 == n % 10;
    assert m >= 10 ==> s[..|s| - 1] == Digits(m / 10);
    assert n >= 10 ==> t[..|t| - 1] == Digits(n / 10);
    if m >= 10 && n >= 10 {
      DigitsInjective(m / 10, n / 10);
    }
  }

  /** `f"{prefix}{n}"`. */
  function Numbered(prefix: char, n: nat): string {
    [prefix] + Digits(n)
  }

  lemma {:induction false} NumberedInjective(p: char, m: nat, q: char, n: nat)
    ensures Numbered(p, m) == Numbered(q, n) <==> p == q && m == n
  {
    if Numbered(p, m) == Numbered(q, n) {
      assert Numbered(p, m)[1..] == Digits(m) && Numbered(q, n)[1..] == Digits(n);
      assert p == Numbered(p, m)[0] == Numbered(q, n)[0] == q;
      DigitsInjective(m, n);
    }
  }

  lemma {:induction false} ColonIsNoDigit(a: string, s: string, b: string, t: string)
    requires |s| < |t| && forall i | 0 <= i < |t| :: t[i] != ':'
    ensures a + ":" + s != b + ":" + t
  {
    var k, l := a + ":" + s, b + ":" + t;
    assert k[|a|] == ':';
    if |k| == |l| {
      assert l[|a|] == t[|a| - |b| - 1];
    }
  }

  /** A key that ends in a colon and a number determines the number. */
  lemma {:induction false} NumberedKeySuffix(a: string, m: nat, b: string, n: nat)
    requires a + ":" + Digits(m) == b + ":" + Digits(n)
    ensures m == n
  {
    var k, s, t := a + ":" + Digits(m), Digits(m), Digits(n);
    if |s| < |t| {
      ColonIsNoDigit(a, s, b, t);
    } else if |t| < |s| {
      ColonIsNoDigit(b, t, a, s);
    } else {
      assert s == k[|k| - |s|..] == t;
      DigitsInjective(m, n);
    }
  }

  lemma {:induction false} ColonInsideNumber(s: string, x: string, t: string, y: string)
    requires |s| < |t| && forall i | 0 <= i < |t| :: t[i] != ':'
    ensures s + ":" + x != t + ":" + y
  {
    var k, l := s + ":" + x, t + ":" + y;
    assert k[|s|] == ':';
    assert l[|s|] == t[|s|];
  }

  /** Nor does a number that is followed by a colon admit another reading. */
  lemma {:induction false} NumberThenColon(m: nat, x: string, n: nat, y: string)
    requires Digits(m) + ":" + x == Digits(n) + ":" + y
    ensures m == n
  {
    var s, t, k := Digits(m), Digits(n), Digits(m) + ":" + x;
    if |s| < |t| {
      ColonInsideNumber(s, x, t, y);
    } else if |t| < |s| {
      ColonInsideNumber(t, y, s, x);
    } else {
      assert s == k[..|s|] == t;
      DigitsInjective(m, n);
    }
  }

  predicate Whitespace(c: char) {
    c == ' ' || '\t' <= c <= '\r'
  }

  /** `not s.strip()`. */
  predicate Blank(s: string) {
    forall i | 0 <= i < |s| :: Whitespace(s[i])
  }
}
