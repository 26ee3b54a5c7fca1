/** The provider boundary (src/lib/money.ts): kobo to and from decimal strings of naira. */
module Decimal {
  import opened Wrappers
  import opened Money

  predicate IsDigit(c: char) { '0' <= c <= '9' }

  predicate AllDigits(s: string) { forall i :: 0 <= i < |s| ==> IsDigit(s[i]) }

  type Digits = s: string | AllDigits(s)

  function Digit(d: nat): char
    requires d < 10
  {
    ('0' as int + d) as char
  }

  function DigitValue(c: char): nat
    requires IsDigit(c)
  {
    c as int - '0' as int
  }

  /** The number a digit string denotes; the empty string denotes 0. */
  function Num(s: Digits): nat {
    if s == [] then 0 else Num(s[..|s| - 1]) * 10 + DigitValue(s[|s| - 1])
  }

  function NatToString(n: nat): Digits {
    if n < 10 then [Digit(n)] else NatToString(n / 10) + [Digit(n % 10)]
  }

  function Zeros(n: nat): Digits { seq(n, _ => '0') }

  function PadStart2(s: Digits): Digits { if |s| < 2 then Zeros(2 - |s|) + s else s }

  function PadEnd3(s: Digits): Digits { if |s| < 3 then s + Zeros(3 - |s|) else s }

  function KoboToDecimal(kobo: int): Result<string, RangeError> {
    if !IsKobo(kobo) then Err(RangeError)
    else Ok(NatToString(kobo / 100) + "." + PadStart2(NatToString(kobo % 100)))
  }

  predicate IsSpace(c: char) {
    c in {' ', '\t', '\n', '\r', '\U{000B}', '\U{000C}', '\U{00A0}', '\U{1680}', '\U{2028}', '\U{2029}',
          '\U{202F}', '\U{205F}', '\U{3000}', '\U{FEFF}'} || '\U{2000}' <= c <= '\U{200A}'
  }

  function TrimStart(s: string): string {
    if s != [] && IsSpace(s[0]) then TrimStart(s[1..]) else s
  }

  function TrimEnd(s: string): string {
    if s != [] && IsSpace(s[|s| - 1]) then TrimEnd(s[..|s| - 1]) else s
  }

  function Trim(s: string): string { TrimEnd(TrimStart(s)) }

  function LeadingDigits(s: string): (n: nat)
    ensures n <= |s| && AllDigits(s[..n]) && (n < |s| ==> !IsDigit(s[n]))
  {
    if s != [] && IsDigit(s[0]) then
      var n := 1 + LeadingDigits(s[1..]);
      assert s[..n] == [s[0]] + s[1..][..n - 1];
      n
    else 0
  }

  /** The pattern ^(\d+)(?:\.(\d+))?$ with its two groups. */
  function Match(s: string): Option<(Digits, Digits)> {
    var n := LeadingDigits(s);
    if n == 0 then None
    else if n == |s| then assert s[..n] == s; Some((s, ""))
    else if s[n] == '.' && n + 1 < |s| && AllDigits(s[n + 1..]) then Some((s[..n], s[n + 1..]))
    else None
  }

  function DecimalToKobo(value: string): Result<int, RangeError> {
    match Match(Trim(value))
    case None => Err(RangeError)
    case Some((whole, decimals)) =>
      var frac := PadEnd3(decimals);
      var floor := Num(whole) * 100 + Num(frac[..2]);
      var kobo := if DigitValue(frac[2]) >= 5 then floor + 1 else floor;
      if IsSafeInteger(kobo) then Ok(kobo) else Err(RangeError)
  }

  // ------------------------------------------------------------ digit algebra

  function Pow10(n: nat): nat { if n == 0 then 1 else 10 * Pow10(n - 1) }

  lemma {:induction false} Pow10Positive(n: nat)
    ensures 0 < Pow10(n)
  {
    if n != 0 { Pow10Positive(n - 1); }
  }

  lemma {:induction false} Pow10Add(a: nat, b: nat)
    ensures Pow10(a + b) == Pow10(a) * Pow10(b)
  {
    if a != 0 {
      Pow10Add(a - 1, b);
      assert 10 * (Pow10(a - 1) * Pow10(b)) == (10 * Pow10(a - 1)) * Pow10(b);
    }
  }

  lemma TimesTen(a: int, p: int)
    ensures (a * p) * 10 == a * (10 * p)
  {
  }

  lemma {:induction false} NumConcat(s: Digits, t: Digits)
    ensures AllDigits(s + t) && Num(s + t) == Num(s) * Pow10(|t|) + Num(t)
  {
    if t == [] {
      assert s + t == s;
    } else {
      NumConcat(s, t[..|t| - 1]);
      LastDigit(s, t);
      NumStep(Num(s), Pow10(|t| - 1), Num(t[..|t| - 1]), DigitValue(t[|t| - 1]));
    }
  }

  lemma LastDigit(s: Digits, t: Digits)
    requires t != [] && AllDigits(s + t[..|t| - 1])
    ensures AllDigits(s + t) && Num(s + t) == Num(s + t[..|t| - 1]) * 10 + DigitValue(t[|t| - 1])
  {
    assert (s + t)[..|s + t| - 1] == s + t[..|t| - 1];
  }

  lemma NumStep(a: int, p: int, n: int, d: int)
    ensures (a * p + n) * 10 + d == a * (10 * p) + (n * 10 + d)
  {
    TimesTen(a, p);
  }

  lemma {:induction false} NumBound(s: Digits)
    ensures Num(s) < Pow10(|s|)
  {
    if s != [] { NumBound(s[..|s| - 1]); }
  }

  lemma {:induction false} NumZeros(n: nat)
    ensures Num(Zeros(n)) == 0
  {
    if n != 0 {
      assert Zeros(n)[..n - 1] == Zeros(n - 1);
      NumZeros(n - 1);
    }
  }

  lemma {:induction false} NumNatToString(n: nat)
    ensures Num(NatToString(n)) == n && NatToString(n) != []
  {
    if n < 10 {
      assert NatToString(n)[..0] == [];
    } else {
      NumNatToString(n / 10);
      assert NatToString(n)[..|NatToString(n)| - 1] == NatToString(n / 10);
    }
  }

  // --------------------------------------------------------------- the grammar

  /** `s` is written as digits `w`, or as `w`, a point and digits `f`. */
  ghost predicate Reads(s: string, w: Digits, f: Digits) {
    w != [] && ((s == w && f == []) || (s == w + "." + f && f != []))
  }

  lemma {:induction false} LeadingDigitsOf(w: Digits, rest: string)
    requires rest == [] || !IsDigit(rest[0])
    ensures LeadingDigits(w + rest) == |w|
  {
    if w == [] {
      assert w + rest == rest;
    } else {
      assert (w + rest)[1..] == w[1..] + rest;
      LeadingDigitsOf(w[1..], rest);
    }
  }

  /** Exactly the decimal numerals are matched, with exactly those groups. */
  lemma MatchIffReads(s: string, w: Digits, f: Digits)
    ensures Match(s) == Some((w, f)) <==> Reads(s, w, f)
  {
    if Reads(s, w, f) {
      if f == [] {
        assert w + [] == w;
        LeadingDigitsOf(w, []);
      } else {
        assert w + "." + f == w + ("." + f);
        LeadingDigitsOf(w, "." + f);
        assert s[..|w|] == w && s[|w| + 1..] == f;
      }
    }
    if Match(s) == Some((w, f)) && LeadingDigits(s) < |s| {
      assert s == s[..LeadingDigits(s)] + "." + s[LeadingDigits(s) + 1..];
    }
  }

  // ------------------------------------------------------------ exact rounding

  lemma HalfUpScale(num: int, den: int, k: int, r: int)
    requires 0 < k
    ensures IsHalfUp(num * k, den * k, r) <==> IsHalfUp(num, den, r)
  {
    var lo, mid, hi := den * (2 * r - 1), 2 * num, den * (2 * r + 1);
    assert (den * k) * (2 * r - 1) == k * lo;
    assert (den * k) * (2 * r + 1) == k * hi;
    assert 2 * (num * k) == k * mid;
    ScaleOrder(k, lo, mid);
    ScaleOrder(k, mid, hi);
  }

  lemma ScaleOrder(k: int, a: int, b: int)
    requires 0 < k
    ensures k * a <= k * b <==> a <= b
    ensures k * a < k * b <==> a < b
  {
    if a < b { MulStrict(k, a, b); }
    if b < a { MulStrict(k, b, a); }
  }

  /** The third decimal alone decides the rounding, however many decimals follow it. */
  lemma ThirdDigitDecides(c: Digits)
    requires c != []
    ensures 2 * Num(c) >= Pow10(|c|) <==> DigitValue(c[0]) >= 5
  {
    LeadingDigit(c);
    NumBound(c[1..]);
    FiveDecides(DigitValue(c[0]), Pow10(|c| - 1), Num(c[1..]));
  }

  lemma LeadingDigit(c: Digits)
    requires c != []
    ensures Num(c) == DigitValue(c[0]) * Pow10(|c| - 1) + Num(c[1..])
  {
    var e: Digits := c[1..];
    assert c == [c[0]] + e;
    NumConcat([c[0]], e);
    assert Num([c[0]]) == DigitValue(c[0]) by { assert [c[0]][..0] == []; }
  }

  lemma FiveDecides(d: nat, p: nat, e: nat)
    requires d < 10 && e < p
    ensures 2 * (d * p + e) >= 10 * p <==> d >= 5
  {
    if d >= 5 { MulMonotone(p, 5, d); } else { MulMonotone(p, d, 4); }
  }

  lemma RoundAt(base: nat, c: nat, p: nat)
    requires c < p
    ensures IsHalfUp(base * p + c, p, if 2 * c >= p then base + 1 else base)
  {
    assert p * (2 * base - 1) == 2 * (base * p) - p;
    assert p * (2 * base + 1) == 2 * (base * p) + p;
    assert p * (2 * (base + 1) - 1) == 2 * (base * p) + p;
    assert p * (2 * (base + 1) + 1) == 2 * (base * p) + 3 * p;
  }

  lemma RoundAtKobo(num: nat, den: nat, base: nat, c: nat, p: nat)
    requires c < p && num == base * p + c && den == 100 * p
    ensures IsHalfUp(100 * num, den, if 2 * c >= p then base + 1 else base)
  {
    RoundAt(base, c, p);
    HalfUpScale(num, p, 100, if 2 * c >= p then base + 1 else base);
  }

  function RoundedKobo(w: Digits, f: Digits): nat {
    var frac := PadEnd3(f);
    Num(w) * 100 + Num(frac[..2]) + if DigitValue(frac[2]) >= 5 then 1 else 0
  }

  lemma SplitAtKobo(w: Digits, g: Digits)
    requires |g| >= 3
    ensures AllDigits(w + g)
    ensures Num(w + g) == (Num(w) * 100 + Num(g[..2])) * Pow10(|g| - 2) + Num(g[2..])
    ensures Pow10(|g|) == 100 * Pow10(|g| - 2)
  {
    var ab: Digits, c: Digits := g[..2], g[2..];
    assert w + g == (w + ab) + c;
    TwoMoreDigits(w, ab);
    NumConcat(w + ab, c);
    Hundredfold(|c|);
  }

  lemma TwoMoreDigits(w: Digits, ab: Digits)
    requires |ab| == 2
    ensures AllDigits(w + ab) && Num(w + ab) == Num(w) * 100 + Num(ab)
  {
    NumConcat(w, ab);
    Hundredfold(0);
  }

  lemma Hundredfold(n: nat)
    ensures Pow10(n + 2) == 100 * Pow10(n) && Pow10(2) == 100
  {
    assert Pow10(n + 2) == 10 * Pow10(n + 1) && Pow10(n + 1) == 10 * Pow10(n);
    assert Pow10(2) == 10 * Pow10(1) && Pow10(1) == 10;
  }

  lemma PaddedRounding(w: Digits, g: Digits)
    requires |g| >= 3
    ensures AllDigits(w + g)
    ensures IsHalfUp(100 * Num(w + g), Pow10(|g|), Num(w) * 100 + Num(g[..2]) + if DigitValue(g[2]) >= 5 then 1 else 0)
  {
    var base := Num(w) * 100 + Num(g[..2]);
    SplitAtKobo(w, g);
    assert |g[2..]| == |g| - 2 && g[2..][0] == g[2];
    TailDecides(base, g[2..], Pow10(|g| - 2), Num(w + g), Pow10(|g|), base + if DigitValue(g[2]) >= 5 then 1 else 0);
  }

  /** After the kobo digits, the rest only decides which way to round. */
  lemma TailDecides(base: nat, c: Digits, p: nat, num: nat, den: nat, r: int)
    requires c != [] && p == Pow10(|c|) && num == base * p + Num(c) && den == 100 * p
    requires r == base + if DigitValue(c[0]) >= 5 then 1 else 0
    ensures IsHalfUp(100 * num, den, r)
  {
    NumBound(c);
    ThirdDigitDecides(c);
    RoundAtKobo(num, den, base, Num(c), p);
  }

  /** Appending zeros changes neither the numeral's value nor, so, its rounding. */
  lemma ExactRounding(w: Digits, f: Digits)
    ensures AllDigits(w + f)
    ensures IsHalfUp(100 * Num(w + f), Pow10(|f|), RoundedKobo(w, f))
  {
    PaddedRounding(w, PadEnd3(f));
    UnpaddedRounding(w, f, RoundedKobo(w, f));
  }

  lemma UnpaddedRounding(w: Digits, f: Digits, r: int)
    requires AllDigits(w + PadEnd3(f)) && IsHalfUp(100 * Num(w + PadEnd3(f)), Pow10(|PadEnd3(f)|), r)
    ensures AllDigits(w + f) && IsHalfUp(100 * Num(w + f), Pow10(|f|), r)
  {
    Padding(w, f);
    Unpad(Num(w + f), Pow10(|f|), Pow10(|PadEnd3(f)| - |f|), Num(w + PadEnd3(f)), Pow10(|PadEnd3(f)|), r);
  }

  lemma Unpad(num: int, den: int, p: int, num': int, den': int, r: int)
    requires 0 < p && num' == num * p && den' == den * p && IsHalfUp(100 * num', den', r)
    ensures IsHalfUp(100 * num, den, r)
  {
    Regroup(100, num, p);
    HalfUpScale(100 * num, den, p, r);
  }

  lemma Padding(w: Digits, f: Digits)
    ensures AllDigits(w + f) && |PadEnd3(f)| >= |f| && AllDigits(w + PadEnd3(f))
    ensures var p := Pow10(|PadEnd3(f)| - |f|);
      0 < p && Num(w + PadEnd3(f)) == Num(w + f) * p && Pow10(|PadEnd3(f)|) == Pow10(|f|) * p
  {
    var z := |PadEnd3(f)| - |f|;
    PaddedWithZeros(w, f);
    TrailingZeros(w + f, z);
    Pow10Add(|f|, z);
    Pow10Positive(z);
  }

  lemma PaddedWithZeros(w: Digits, f: Digits)
    ensures |PadEnd3(f)| >= |f| && w + PadEnd3(f) == (w + f) + Zeros(|PadEnd3(f)| - |f|)
  {
    var z := |PadEnd3(f)| - |f|;
    assert PadEnd3(f) == f + Zeros(z);
    assert w + (f + Zeros(z)) == (w + f) + Zeros(z);
  }

  lemma TrailingZeros(s: Digits, z: nat)
    ensures AllDigits(s + Zeros(z)) && Num(s + Zeros(z)) == Num(s) * Pow10(z)
  {
    NumConcat(s, Zeros(z));
    NumZeros(z);
  }

  lemma Regroup(a: int, b: int, c: int)
    ensures (a * b) * c == a * (b * c)
  {
  }

  /** A numeral with any number of decimals is read as its exact value rounded half-up to the
      kobo; it is refused only when that is too large. Anything else is refused. */
  lemma DecimalMeansHalfUp(value: string, w: Digits, f: Digits, kobo: int)
    requires Reads(Trim(value), w, f)
    requires AllDigits(w + f) && IsHalfUp(100 * Num(w + f), Pow10(|f|), kobo)
    ensures DecimalToKobo(value) == if IsSafeInteger(kobo) then Ok(kobo) else Err(RangeError)
  {
    ReadsAsRounded(value, w, f);
    ExactRounding(w, f);
    Pow10Positive(|f|);
    HalfUpUnique(100 * Num(w + f), Pow10(|f|), kobo, RoundedKobo(w, f));
  }

  lemma ReadsAsRounded(value: string, w: Digits, f: Digits)
    requires Reads(Trim(value), w, f)
    ensures DecimalToKobo(value) == if IsSafeInteger(RoundedKobo(w, f)) then Ok(RoundedKobo(w, f)) else Err(RangeError)
  {
    MatchIffReads(Trim(value), w, f);
  }

  lemma RefusesNonNumerals(value: string)
    requires forall w: Digits, f: Digits :: !Reads(Trim(value), w, f)
    ensures DecimalToKobo(value) == Err(RangeError)
  {
    match Match(Trim(value))
    case None =>
    case Some((w, f)) => MatchIffReads(Trim(value), w, f);
  }

  /** Trimming drops the spaces around and nothing else. */
  lemma TrimMeans(a: string, s: string, b: string)
    requires AllSpaces(a) && AllSpaces(b) && (s != [] ==> !IsSpace(s[0]) && !IsSpace(s[|s| - 1]))
    ensures Trim(a + s + b) == s
  {
    if s == [] {
      assert a + s + b == a + b;
      TrimStartDrops(a + b, []);
      assert (a + b) + [] == a + b;
    } else {
      assert a + s + b == a + (s + b);
      TrimStartDrops(a, s + b);
      TrimEndDrops(s, b);
    }
  }

  predicate AllSpaces(s: string) { forall i :: 0 <= i < |s| ==> IsSpace(s[i]) }

  lemma {:induction false} TrimStartDrops(a: string, s: string)
    requires AllSpaces(a) && (s != [] ==> !IsSpace(s[0]))
    ensures TrimStart(a + s) == s
  {
    if a == [] {
      assert a + s == s;
    } else {
      assert (a + s)[1..] == a[1..] + s;
      TrimStartDrops(a[1..], s);
    }
  }

  lemma {:induction false} TrimEndDrops(s: string, b: string)
    requires AllSpaces(b) && (s != [] ==> !IsSpace(s[|s| - 1]))
    ensures TrimEnd(s + b) == s
  {
    if b == [] {
      assert s + b == s;
    } else {
      assert (s + b)[..|s + b| - 1] == s + b[..|b| - 1];
      TrimEndDrops(s, b[..|b| - 1]);
    }
  }

  lemma TrimKeepsNumerals(w: Digits, f: Digits)
    requires w != [] && f != []
    ensures Trim(w + "." + f) == w + "." + f
  {
    var s := w + "." + f;
    assert s[0] == w[0] && s[|s| - 1] == f[|f| - 1];
    assert !IsSpace(s[0]) && !IsSpace(s[|s| - 1]);
  }

  /** What is printed for the provider reads back as the same amount. */
  lemma DecimalRoundTrip(kobo: int)
    requires IsKobo(kobo)
    ensures KoboToDecimal(kobo).Ok? && DecimalToKobo(KoboToDecimal(kobo).value) == Ok(kobo)
  {
    var w, f := NatToString(kobo / 100), PadStart2(NatToString(kobo % 100));
    PrintedValue(kobo);
    TrimKeepsNumerals(w, f);
    HalfUpExactly(Num(w + f), Pow10(|f|), kobo);
    DecimalMeansHalfUp(w + "." + f, w, f, kobo);
  }

  /** What is printed is the whole naira without leading zeros, a point and exactly two digits of kobo. */
  lemma PrintsTwoDecimals(kobo: int)
    ensures KoboToDecimal(kobo).Ok? <==> 0 <= kobo <= 9_007_199_254_740_991
    ensures KoboToDecimal(kobo).Ok? ==>
      exists w: Digits, f: Digits ::
        && KoboToDecimal(kobo).value == w + "." + f && |f| == 2 && w != [] && (|w| > 1 ==> w[0] != '0')
        && Num(w) == kobo / 100 && Num(f) == kobo % 100
  {
    if IsKobo(kobo) {
      var w, f := NatToString(kobo / 100), PadStart2(NatToString(kobo % 100));
      NumNatToString(kobo / 100);
      TwoDigits(kobo % 100);
      NoLeadingZero(kobo / 100);
      assert KoboToDecimal(kobo).value == w + "." + f;
    }
  }

  lemma {:induction false} NoLeadingZero(n: nat)
    ensures NatToString(n) != [] && (n > 0 ==> NatToString(n)[0] != '0') && (n < 10 ==> |NatToString(n)| == 1)
  {
    if n >= 10 { NoLeadingZero(n / 10); }
  }

  lemma PrintedValue(kobo: nat)
    ensures var w, f := NatToString(kobo / 100), PadStart2(NatToString(kobo % 100));
            && w != [] && |f| == 2 && Pow10(|f|) == 100
            && AllDigits(w + f) && Num(w + f) == kobo
  {
    NumNatToString(kobo / 100);
    TwoDigits(kobo % 100);
    NumConcat(NatToString(kobo / 100), PadStart2(NatToString(kobo % 100)));
    assert Pow10(2) == 10 * Pow10(1) && Pow10(1) == 10;
  }

  lemma TwoDigits(n: nat)
    requires n < 100
    ensures |PadStart2(NatToString(n))| == 2 && Num(PadStart2(NatToString(n))) == n
  {
    var r := NatToString(n);
    NumNatToString(n);
    if n >= 10 {
      assert |NatToString(n / 10)| == 1;
    } else {
      NumZeros(1);
      NumConcat(Zeros(1), r);
    }
  }

  lemma HalfUpExactly(num: int, den: int, x: int)
    requires num == x && den == 100
    ensures IsHalfUp(100 * num, den, x)
  {
  }
}
