/** Times as the store writes them: UTC civil time, its RFC 3339 text, and the
    byte order that the store's ORDER BY clauses apply to that text. */
module Timestamps {
  import opened Digits

  datatype UTC = UTC(year: nat, month: nat, day: nat, hour: nat, minute: nat, second: nat, nano: nat) {
    predicate Valid() {
      && year < 10000
      && 1 <= month <= 12
      && 1 <= day <= 31
      && hour < 24
      && minute < 60
      && second < 60
      && nano < 1_000_000_000
    }
  }

  type Instant = t: UTC | t.Valid() witness UTC(1970, 1, 1, 0, 0, 0, 0)

  /** `t` lies in an earlier second than `u`. */
  predicate EarlierSecond(t: Instant, u: Instant) {
    if t.year != u.year then t.year < u.year
    else if t.month != u.month then t.month < u.month
    else if t.day != u.day then t.day < u.day
    else if t.hour != u.hour then t.hour < u.hour
    else if t.minute != u.minute then t.minute < u.minute
    else t.second < u.second
  }

  predicate SameSecond(t: Instant, u: Instant) {
    t.(nano := 0) == u.(nano := 0)
  }

  predicate Before(t: Instant, u: Instant) {
    EarlierSecond(t, u) || (SameSecond(t, u) && t.nano < u.nano)
  }

  // ---------- text order ----------

  /** The strict byte order of texts. */
  predicate TextLess(a: string, b: string) {
    b != "" && (a == "" || a[0] < b[0] || (a[0] == b[0] && TextLess(a[1..], b[1..])))
  }

  predicate TextLeq(a: string, b: string) {
    a == b || TextLess(a, b)
  }

  lemma TextLessTransitive(a: string, b: string, c: string)
    requires TextLess(a, b) && TextLess(b, c)
    ensures TextLess(a, c)
  {
  }

  lemma TextLessTotal(a: string, b: string)
    ensures TextLess(a, b) || a == b || TextLess(b, a)
    ensures !(TextLess(a, b) && TextLess(b, a))
    ensures !TextLess(a, a)
  {
  }

  lemma {:induction false} TextLessCommonPrefix(p: string, a: string, b: string)
    ensures TextLess(p + a, p + b) == TextLess(a, b)
  {
    if p == "" {
      assert p + a == a && p + b == b;
    } else {
      TextLessCommonPrefix(p[1..], a, b);
      assert (p + a)[1..] == p[1..] + a;
      assert (p + b)[1..] == p[1..] + b;
    }
  }

  /** Texts of equal length that differ decide the order, whatever follows them. */
  lemma {:induction false} TextLessFixedWidth(x: string, y: string, a: string, b: string)
    requires |x| == |y| && TextLess(x, y)
    ensures TextLess(x + a, y + b)
  {
    assert (x + a)[0] == x[0] && (y + b)[0] == y[0];
    if x[0] == y[0] {
      TextLessFixedWidth(x[1..], y[1..], a, b);
      assert (x + a)[1..] == x[1..] + a;
      assert (y + b)[1..] == y[1..] + b;
    }
  }

  // ---------- digits ----------

  function Power10(w: nat): (p: nat)
    ensures p > 0
  {
    if w == 0 then 1 else 10 * Power10(w - 1)
  }

  /** `n` in decimal, padded with zeros to `w` digits. */
  function Padded(n: nat, w: nat): (s: string)
    ensures |s| == w && AllDigits(s)
  {
    if w == 0 then "" else Padded(n / 10, w - 1) + [DigitChar(n % 10)]
  }

  lemma {:induction false} PaddedOrder(m: nat, n: nat, w: nat)
    requires m < n < Power10(w)
    ensures TextLess(Padded(m, w), Padded(n, w))
  {
    if m / 10 < n / 10 {
      PaddedOrder(m / 10, n / 10, w - 1);
      TextLessFixedWidth(Padded(m / 10, w - 1), Padded(n / 10, w - 1), [DigitChar(m % 10)], [DigitChar(n % 10)]);
    } else {
      TextLessCommonPrefix(Padded(m / 10, w - 1), [DigitChar(m % 10)], [DigitChar(n % 10)]);
    }
  }

  predicate AllZeros(s: string) {
    forall i :: 0 <= i < |s| ==> s[i] == '0'
  }

  /** `s` without its trailing zeros. */
  function TrimZeros(s: string): (r: string)
    ensures r <= s && AllZeros(s[|r|..])
    ensures r != "" ==> r[|r| - 1] != '0'
  {
    if AllZeros(s) then ""
    else
      var rest := TrimZeros(s[1..]);
      assert forall i :: 0 <= i < |s[1 + |rest|..]| ==> s[1 + |rest|..][i] == s[1..][|rest|..][i];
      [s[0]] + rest
  }

  /** The nanoseconds as a decimal fraction without trailing zeros. */
  function Fraction(t: Instant): string {
    TrimZeros(Padded(t.nano, 9))
  }

  // ---------- the stamp ----------

  /** Everything up to the second: 19 characters for every instant. */
  function SecondText(t: Instant): (s: string)
    ensures |s| == 19
  {
    Padded(t.year, 4) + ("-" + (Padded(t.month, 2) + ("-" + (Padded(t.day, 2) + ("T" +
    (Padded(t.hour, 2) + (":" + (Padded(t.minute, 2) + (":" + Padded(t.second, 2))))))))))
  }

  function FractionText(fraction: string): string {
    (if fraction == "" then "" else "." + fraction) + "Z"
  }

  /** RFC 3339 with nanoseconds, in UTC (sections 5.1 and 5.6 of RFC 3339). */
  function Stamp(t: Instant): string {
    SecondText(t) + FractionText(Fraction(t))
  }

  lemma FieldOrder(m: nat, n: nat, w: nat, a: string, b: string)
    requires m < Power10(w) && n < Power10(w)
    requires m < n || (m == n && TextLess(a, b))
    ensures TextLess(Padded(m, w) + a, Padded(n, w) + b)
  {
    if m < n {
      PaddedOrder(m, n, w);
      TextLessFixedWidth(Padded(m, w), Padded(n, w), a, b);
    } else {
      TextLessCommonPrefix(Padded(m, w), a, b);
    }
  }

  lemma SecondTextOrder(t: Instant, u: Instant)
    requires EarlierSecond(t, u)
    ensures TextLess(SecondText(t), SecondText(u))
  {
    assert Power10(2) == 100 && Power10(4) == 10000;
    var t1, u1 := ":" + Padded(t.second, 2), ":" + Padded(u.second, 2);
    var t2, u2 := ":" + (Padded(t.minute, 2) + t1), ":" + (Padded(u.minute, 2) + u1);
    var t3, u3 := "T" + (Padded(t.hour, 2) + t2), "T" + (Padded(u.hour, 2) + u2);
    var t4, u4 := "-" + (Padded(t.day, 2) + t3), "-" + (Padded(u.day, 2) + u3);
    var t5, u5 := "-" + (Padded(t.month, 2) + t4), "-" + (Padded(u.month, 2) + u4);
    if t.second < u.second {
      PaddedOrder(t.second, u.second, 2);
      TextLessCommonPrefix(":", Padded(t.second, 2), Padded(u.second, 2));
    }
    if t.minute < u.minute || (t.minute == u.minute && t.second < u.second) {
      FieldOrder(t.minute, u.minute, 2, t1, u1);
      TextLessCommonPrefix(":", Padded(t.minute, 2) + t1, Padded(u.minute, 2) + u1);
    }
    if t.hour < u.hour || (t.hour == u.hour && TextLess(t2, u2)) {
      FieldOrder(t.hour, u.hour, 2, t2, u2);
      TextLessCommonPrefix("T", Padded(t.hour, 2) + t2, Padded(u.hour, 2) + u2);
    }
    if t.day < u.day || (t.day == u.day && TextLess(t3, u3)) {
      FieldOrder(t.day, u.day, 2, t3, u3);
      TextLessCommonPrefix("-", Padded(t.day, 2) + t3, Padded(u.day, 2) + u3);
    }
    if t.month < u.month || (t.month == u.month && TextLess(t4, u4)) {
      FieldOrder(t.month, u.month, 2, t4, u4);
      TextLessCommonPrefix("-", Padded(t.month, 2) + t4, Padded(u.month, 2) + u4);
    }
    FieldOrder(t.year, u.year, 4, t5, u5);
  }

  predicate ProperPrefix(a: string, b: string) {
    a < b
  }

  /** Both texts go on to a position where the first one is smaller. */
  predicate Diverges(a: string, b: string) {
    a != "" && b != "" && (a[0] < b[0] || (a[0] == b[0] && Diverges(a[1..], b[1..])))
  }

  lemma {:induction false} DivergesOrder(a: string, b: string, x: string, y: string)
    requires Diverges(a, b)
    ensures TextLess(a + x, b + y)
  {
    assert (a + x)[0] == a[0] && (b + y)[0] == b[0];
    if a[0] == b[0] {
      DivergesOrder(a[1..], b[1..], x, y);
      assert (a + x)[1..] == a[1..] + x;
      assert (b + y)[1..] == b[1..] + y;
    }
  }

  /** Of two digit texts of one length, the smaller one loses its zeros to become
      a proper prefix of the other, or the two still differ at some position. */
  lemma {:induction false} TrimmedOrder(x: string, y: string)
    requires |x| == |y| && AllDigits(x) && AllDigits(y) && TextLess(x, y)
    ensures ProperPrefix(TrimZeros(x), TrimZeros(y)) || Diverges(TrimZeros(x), TrimZeros(y))
    decreases |x|
  {
    if AllZeros(y) {
      ZerosLeast(x, y);
    } else if !AllZeros(x) && x[0] == y[0] {
      TrimmedOrder(x[1..], y[1..]);
      var a, b := TrimZeros(x[1..]), TrimZeros(y[1..]);
      assert TrimZeros(x) == [x[0]] + a && TrimZeros(y) == [y[0]] + b;
      assert ([x[0]] + a)[1..] == a && ([y[0]] + b)[1..] == b;
    }
  }

  lemma {:induction false} ZerosLeast(x: string, y: string)
    requires |x| == |y| && AllDigits(x) && AllZeros(y)
    ensures !TextLess(x, y)
  {
    if x != "" {
      ZerosLeast(x[1..], y[1..]);
    }
  }

  /** For `t` before `u`, the stamps are in the same order unless both lie in one
      second and `t`'s trimmed fraction is a proper prefix of `u`'s; then, and
      only then, the order of the stamps is reversed. */
  lemma StampOrder(t: Instant, u: Instant)
    requires Before(t, u)
    ensures TextLess(Stamp(t), Stamp(u)) <==> !(SameSecond(t, u) && ProperPrefix(Fraction(t), Fraction(u)))
    ensures TextLess(Stamp(u), Stamp(t)) <==> SameSecond(t, u) && ProperPrefix(Fraction(t), Fraction(u))
  {
    TextLessTotal(Stamp(t), Stamp(u));
    var a, b := Fraction(t), Fraction(u);
    if EarlierSecond(t, u) {
      SecondTextOrder(t, u);
      TextLessFixedWidth(SecondText(t), SecondText(u), FractionText(a), FractionText(b));
    } else {
      assert SecondText(t) == SecondText(u);
      TextLessCommonPrefix(SecondText(t), FractionText(a), FractionText(b));
      TextLessCommonPrefix(SecondText(t), FractionText(b), FractionText(a));
      FractionOrder(t.nano, u.nano);
    }
  }

  lemma FractionOrder(m: nat, n: nat)
    requires m < n < 1_000_000_000
    ensures var a, b := TrimZeros(Padded(m, 9)), TrimZeros(Padded(n, 9));
            && (ProperPrefix(a, b) ==> TextLess(FractionText(b), FractionText(a)))
            && (!ProperPrefix(a, b) ==> TextLess(FractionText(a), FractionText(b)))
  {
    Power10Nine();
    PaddedOrder(m, n, 9);
    TrimmedTailOrder(Padded(m, 9), Padded(n, 9));
  }

  lemma Power10Nine()
    ensures Power10(9) == 1_000_000_000
  {
  }

  lemma TrimmedTailOrder(x: string, y: string)
    requires |x| == |y| && AllDigits(x) && AllDigits(y) && TextLess(x, y)
    ensures var a, b := TrimZeros(x), TrimZeros(y);
            && (ProperPrefix(a, b) ==> TextLess(FractionText(b), FractionText(a)))
            && (!ProperPrefix(a, b) ==> TextLess(FractionText(a), FractionText(b)))
  {
    TrimmedOrder(x, y);
    var a, b := TrimZeros(x), TrimZeros(y);
    if ProperPrefix(a, b) {
      assert b[|a|] == y[|a|];
      PrefixTailOrder(a, b);
    } else {
      DivergingTailOrder(a, b);
    }
  }

  lemma DivergingTailOrder(a: string, b: string)
    requires Diverges(a, b)
    ensures TextLess(FractionText(a), FractionText(b))
  {
    DivergesOrder(a, b, "Z", "Z");
    TextLessCommonPrefix(".", a + "Z", b + "Z");
    assert FractionText(a) == "." + (a + "Z") && FractionText(b) == "." + (b + "Z");
  }

  lemma PrefixTailOrder(a: string, b: string)
    requires ProperPrefix(a, b) && IsDigit(b[|a|])
    ensures TextLess(FractionText(b), FractionText(a))
  {
    if a != "" {
      var rest := b[|a|..];
      TextLessCommonPrefix("." + a, rest + "Z", "Z");
      assert FractionText(a) == ("." + a) + "Z" && FractionText(b) == ("." + a) + (rest + "Z");
    }
  }
}
