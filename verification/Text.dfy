/** Decimal rendering of integers, as `strconv.Itoa` and `%d` give it, and the
    trimming of white space. */
module Text {

  function Digit(d: nat): char
    requires d < 10
  {
    "0123456789"[d]
  }

  predicate IsDigit(c: char) { '0' <= c <= '9' }

  function Decimal(n: nat): (s: string)
    ensures s != [] && forall i | 0 <= i < |s| :: IsDigit(s[i])
  {
    if n < 10 then [Digit(n)] else Decimal(n / 10) + [Digit(n % 10)]
  }

  /** The number that digits write. */
  function ValueOf(s: string): int {
    if s == "" then 0 else 10 * ValueOf(s[..|s| - 1]) + (s[|s| - 1] as int - '0' as int)
  }

  lemma {:induction false} DecimalIs(n: nat)
    ensures ValueOf(Decimal(n)) == n
    ensures n >= 10 ==> Decimal(n)[0] != '0'
  {
    DigitIs(n % 10);
    if n >= 10 {
      DecimalIs(n / 10);
      assert Decimal(n)[..|Decimal(n)| - 1] == Decimal(n / 10);
    } else {
      assert Decimal(n)[..0] == "";
    }
  }

  lemma DigitIs(d: nat)
    requires d < 10
    ensures Digit(d) as int == '0' as int + d
    ensures d == 0 <==> Digit(d) == '0'
  {
  }

  function Pow10(k: nat): (p: nat)
    ensures p >= 1
  {
    if k == 0 then 1 else 10 * Pow10(k - 1)
  }

  /** A number below 10^k takes at most k digits, and at least 10^(k-1) takes k. */
  lemma {:induction false} DecimalLength(n: nat, k: nat)
    requires k >= 1
    ensures n < Pow10(k) <==> |Decimal(n)| <= k
  {
    if k == 1 {
      assert Pow10(1) == 10 * Pow10(0);
    } else if n >= 10 {
      DecimalLength(n / 10, k - 1);
      assert Pow10(k) == 10 * Pow10(k - 1);
    } else {
      assert Pow10(k) == 10 * Pow10(k - 1);
    }
  }

  /** The largest machine integer. */
  const MAX_INT := 0x7fff_ffff_ffff_ffff

  lemma DecimalMonotone(m: nat, n: nat)
    requires m <= n
    ensures |Decimal(m)| <= |Decimal(n)|
  {
    DecimalLength(n, |Decimal(n)|);
    DecimalLength(m, |Decimal(n)|);
  }

  lemma NineteenDigits(n: nat)
    requires n <= MAX_INT
    ensures |Decimal(n)| <= |Decimal(MAX_INT)| == 19
  {
    assert Pow10(9) == 1000000000;
    assert Pow10(18) == 1000000000 * Pow10(9) by {
      assert Pow10(12) == 1000 * Pow10(9);
      assert Pow10(15) == 1000 * Pow10(12);
      assert Pow10(18) == 1000 * Pow10(15);
    }
    assert Pow10(19) == 10 * Pow10(18);
    DecimalLength(MAX_INT, 19);
    DecimalLength(MAX_INT, 18);
    DecimalMonotone(n, MAX_INT);
  }

  lemma {:induction false} DecimalInjective(m: nat, n: nat)
    requires Decimal(m) == Decimal(n)
    ensures m == n
    decreases m + n
  {
    var s, t := Decimal(m), Decimal(n);
    assert s[|s| - 1] == Digit(m % 10) && t[|t| - 1] == Digit(n % 10);
    assert (|s| == 1 <==> m < 10) && (|t| == 1 <==> n < 10);
    if m >= 10 {
      assert Decimal(m / 10) == s[..|s| - 1] && Decimal(n / 10) == t[..|t| - 1];
      DecimalInjective(m / 10, n / 10);
    }
  }

  /** `strconv.Itoa`. */
  function Itoa(n: int): string { if n < 0 then "-" + Decimal(-n) else Decimal(n) }

  lemma ItoaIs(m: int, n: int)
    ensures forall i | 0 <= i < |Itoa(n)| :: Itoa(n)[i] == '-' || IsDigit(Itoa(n)[i])
    ensures Itoa(m) == Itoa(n) <==> m == n
  {
    if Itoa(m) == Itoa(n) && m != n {
      assert Itoa(m)[0] == Itoa(n)[0];
      assert m < 0 <==> n < 0;
      if m < 0 {
        assert Decimal(-m) == Itoa(m)[1..] && Decimal(-n) == Itoa(n)[1..];
        DecimalInjective(-m, -n);
      } else {
        DecimalInjective(m, n);
      }
    }
  }

  /** Splitting at the first separator is unambiguous. */
  lemma FirstSeparator(a: string, x: string, b: string, y: string, sep: char)
    requires sep !in a && sep !in b && a + [sep] + x == b + [sep] + y
    ensures a == b && x == y
  {
    var s, t := a + [sep] + x, b + [sep] + y;
    assert s[|a|] == sep && t[|b|] == sep;
    assert forall i | 0 <= i < |a| :: s[i] == a[i];
    assert forall i | 0 <= i < |b| :: t[i] == b[i];
    assert |a| == |b|;
    assert a == s[..|a|] && b == t[..|b|] && x == s[|a| + 1..] && y == t[|b| + 1..];
  }

  /** So is splitting at the last. */
  lemma LastSeparator(a: string, x: string, b: string, y: string, sep: char)
    requires sep !in x && sep !in y && a + [sep] + x == b + [sep] + y
    ensures a == b && x == y
  {
    var s, t := a + [sep] + x, b + [sep] + y;
    assert s[|a|] == sep && t[|b|] == sep;
    assert forall i | |a| < i < |s| :: s[i] == x[i - |a| - 1];
    assert forall i | |b| < i < |t| :: t[i] == y[i - |b| - 1];
    assert |a| == |b|;
    assert a == s[..|a|] && b == t[..|b|] && x == s[|a| + 1..] && y == t[|b| + 1..];
  }

  /** A tail of digits is set off unambiguously by the separator before it. */
  lemma DigitTail(x: string, m: nat, y: string, n: nat, sep: char)
    requires !IsDigit(sep)
    requires x + [sep] + Decimal(m) == y + [sep] + Decimal(n)
    ensures x == y && m == n
  {
    LastSeparator(x, Decimal(m), y, Decimal(n), sep);
    DecimalInjective(m, n);
  }

  predicate IsSpace(c: char) {
    c == ' ' || '\t' <= c <= '\r' || c == '\U{85}' || c == '\U{A0}' || c == '\U{1680}' ||
    '\U{2000}' <= c <= '\U{200A}' || c == '\U{2028}' || c == '\U{2029}' || c == '\U{202F}' ||
    c == '\U{205F}' || c == '\U{3000}'
  }

  /** `strings.TrimSpace`. */
  function Trim(s: string): string {
    if s == "" then ""
    else if IsSpace(s[0]) then Trim(s[1..])
    else if IsSpace(s[|s| - 1]) then Trim(s[..|s| - 1])
    else s
  }

  /** Trimming takes white space from both ends and nothing else. */
  lemma {:induction false} TrimTakes(s: string) returns (a: string, b: string)
    ensures s == a + Trim(s) + b
    ensures forall c | c in a || c in b :: IsSpace(c)
    decreases |s|
  {
    if s == "" {
      return "", "";
    } else if IsSpace(s[0]) {
      a, b := TrimTakes(s[1..]);
      return [s[0]] + a, b;
    } else if IsSpace(s[|s| - 1]) {
      a, b := TrimTakes(s[..|s| - 1]);
      assert s == s[..|s| - 1] + [s[|s| - 1]];
      return a, b + [s[|s| - 1]];
    }
    return "", "";
  }

  /** Only white space trims away to nothing; what is left has none at its ends. */
  lemma {:induction false} TrimIs(s: string)
    ensures Trim(s) == "" <==> forall i | 0 <= i < |s| :: IsSpace(s[i])
    ensures Trim(Trim(s)) == Trim(s)
    ensures Trim(s) != "" ==> !IsSpace(Trim(s)[0]) && !IsSpace(Trim(s)[|Trim(s)| - 1])
    decreases |s|
  {
    if s == "" {
    } else if IsSpace(s[0]) {
      TrimIs(s[1..]);
      assert forall i | 0 <= i < |s| :: i == 0 || s[i] == s[1..][i - 1];
    } else if IsSpace(s[|s| - 1]) {
      TrimIs(s[..|s| - 1]);
      assert s[..|s| - 1][0] == s[0];
    }
  }
}
