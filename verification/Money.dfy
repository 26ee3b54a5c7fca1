/** Money helpers (src/lib/money.ts). All amounts are whole kobo. */
module Money {
  import opened Wrappers
  import opened Sorting
  import opened Sums

  const MAX_SAFE_INTEGER: int := 9007199254740991

  const CHECKOUT_FEE_PERCENT: int := 2
  const CHECKOUT_FEE_FLAT_KOBO: int := 2_000
  const WITHDRAWAL_FEE_LOW_KOBO: int := 10_000
  const WITHDRAWAL_FEE_HIGH_KOBO: int := 20_000
  const WITHDRAWAL_FEE_THRESHOLD_KOBO: int := 5_000_000
  const MIN_PAYOUT_KOBO: int := 100_000

  datatype RangeError = RangeError

  predicate IsSafeInteger(x: int) {
    -MAX_SAFE_INTEGER <= x <= MAX_SAFE_INTEGER
  }

  predicate IsKobo(x: int) {
    0 <= x && IsSafeInteger(x)
  }

  // ---------------------------------------------------------------- rounding

  function MulDivRoundHalfUp(a: nat, num: nat, den: nat): int
    requires 0 < den
  {
    (a * num * 2 + den) / (den * 2)
  }

  /** `r` is `num / den` rounded to the nearest integer, halves upwards. */
  ghost predicate IsHalfUp(num: int, den: int, r: int) {
    den * (2 * r - 1) <= 2 * num < den * (2 * r + 1)
  }

  lemma RoundsHalfUp(a: nat, num: nat, den: nat)
    requires 0 < den
    ensures IsHalfUp(a * num, den, MulDivRoundHalfUp(a, num, den))
  {
    var r := MulDivRoundHalfUp(a, num, den);
    var top := a * num * 2 + den;
    assert top == (den * 2) * r + top % (den * 2);
    assert (den * 2) * r == den * (2 * r);
    assert den * (2 * r - 1) == den * (2 * r) - den;
    assert den * (2 * r + 1) == den * (2 * r) + den;
  }

  lemma DivMod(x: nat, d: nat)
    requires 0 < d
    ensures x == d * (x / d) + x % d && 0 <= x % d < d
  {
  }

  lemma DivMonotone(x: nat, y: nat, d: nat)
    requires 0 < d && x <= y
    ensures x / d <= y / d && (x / d == y / d ==> x % d <= y % d)
  {
    DivMod(x, d);
    DivMod(y, d);
    if y / d < x / d {
      MulMonotone(d, y / d + 1, x / d);
    }
  }

  lemma HalfUpUnique(num: int, den: int, r: int, r': int)
    requires 0 < den && IsHalfUp(num, den, r) && IsHalfUp(num, den, r')
    ensures r == r'
  {
    if r < r' {
      assert den * (2 * r + 1) <= den * (2 * r' - 1) by { MulMonotone(den, 2 * r + 1, 2 * r' - 1); }
    } else if r' < r {
      assert den * (2 * r' + 1) <= den * (2 * r - 1) by { MulMonotone(den, 2 * r' + 1, 2 * r - 1); }
    }
  }

  lemma MulMonotone(k: nat, x: int, y: int)
    requires x <= y
    ensures k * x <= k * y
  {
    assert k * (y - x) >= 0;
    assert k * (y - x) == k * y - k * x;
  }

  lemma MulStrict(k: nat, x: int, y: int)
    requires 0 < k && x < y
    ensures k * x < k * y
  {
    MulMonotone(k, x + 1, y);
  }

  // -------------------------------------------------------------- checkout fee

  function CheckoutFee(faceKobo: int): Result<int, RangeError> {
    if !IsKobo(faceKobo) then Err(RangeError)
    else if faceKobo == 0 then Ok(0)
    else Ok(MulDivRoundHalfUp(faceKobo, CHECKOUT_FEE_PERCENT, 100) + CHECKOUT_FEE_FLAT_KOBO)
  }

  /** The fee on a face is two percent of it rounded half-up, and twenty naira; nothing on nothing. */
  lemma CheckoutFeeMeans(face: int)
    ensures CheckoutFee(face).Ok? <==> 0 <= face <= 9_007_199_254_740_991
    ensures CheckoutFee(face).Ok? ==> if face == 0 then CheckoutFee(face).value == 0 else IsHalfUp(face * 2, 100, CheckoutFee(face).value - 2_000)
  {
    if 0 < face { RoundsHalfUp(face, 2, 100); }
  }

  function FeeOf(faceKobo: int): int
    requires IsKobo(faceKobo)
  {
    CheckoutFee(faceKobo).value
  }

  function SeparateFees(faces: seq<int>): int
    requires forall i :: 0 <= i < |faces| ==> IsKobo(faces[i])
  {
    if faces == [] then 0 else SeparateFees(faces[..|faces| - 1]) + FeeOf(faces[|faces| - 1])
  }

  lemma TwoFees(a: int, b: int)
    requires 0 < a && 0 < b && IsKobo(a) && IsKobo(b) && IsKobo(a + b)
    ensures FeeOf(a + b) + 1999 <= FeeOf(a) + FeeOf(b) <= FeeOf(a + b) + 2001
  {
  }

  /** The flat charge is paid once per basket: paying n dues separately costs between
      1999(n-1) and 2001(n-1) kobo more than paying them together. */
  lemma {:induction false} BasketSaves(faces: seq<int>)
    requires faces != [] && forall i :: 0 <= i < |faces| ==> 0 < faces[i]
    requires IsKobo(Sum(faces))
    ensures forall i :: 0 <= i < |faces| ==> IsKobo(faces[i])
    ensures 1999 * (|faces| - 1) <= SeparateFees(faces) - FeeOf(Sum(faces)) <= 2001 * (|faces| - 1)
  {
    SumNonNegative(faces);
    var last := faces[|faces| - 1];
    var front := faces[..|faces| - 1];
    if |faces| == 1 {
      assert Sum(front) == 0;
      assert Sum(faces) == last;
      assert SeparateFees(front) == 0;
    } else {
      SumNonNegative(front);
      assert Sum(faces) == Sum(front) + last;
      assert 0 < Sum(front) by { assert front[0] <= Sum(front); }
      BasketSaves(front);
      TwoFees(Sum(front), last);
    }
  }

  // ---------------------------------------------------------- withdrawal fee

  datatype Breakdown = Breakdown(gross: int, fee: int, feeBeforeDiscount: int, discount: int, net: int)

  function WithdrawalFee(grossKobo: int): Result<int, RangeError> {
    if !IsKobo(grossKobo) then Err(RangeError)
    else Ok(if grossKobo < WITHDRAWAL_FEE_THRESHOLD_KOBO then WITHDRAWAL_FEE_LOW_KOBO else WITHDRAWAL_FEE_HIGH_KOBO)
  }

  function DiscountedFee(feeKobo: nat, discountPercent: int): Result<int, RangeError> {
    if discountPercent < 0 || discountPercent > 100 then Err(RangeError)
    else Ok(feeKobo - MulDivRoundHalfUp(feeKobo, discountPercent, 100))
  }

  function ComputeWithdrawal(grossKobo: int, discountPercent: int): Result<Breakdown, RangeError> {
    match WithdrawalFee(grossKobo)
    case Err(e) => Err(e)
    case Ok(before) =>
      match DiscountedFee(before, discountPercent)
      case Err(e) => Err(e)
      case Ok(fee) => Ok(Breakdown(grossKobo, fee, before, before - fee, grossKobo - fee))
  }

  /** A discount never makes the fee negative or larger, and rounds the part taken off half-up. */
  lemma DiscountBounds(fee: nat, percent: int)
    requires 0 <= percent <= 100
    ensures DiscountedFee(fee, percent).Ok?
    ensures 0 <= DiscountedFee(fee, percent).value <= fee
    ensures IsHalfUp(fee * percent, 100, fee - DiscountedFee(fee, percent).value)
  {
    RoundsHalfUp(fee, percent, 100);
    var r := MulDivRoundHalfUp(fee, percent, 100);
    assert fee * percent <= fee * 100 by { MulMonotone(fee, percent, 100); }
  }

  /** Every permitted withdrawal splits exactly into what is sent and the fee, and at least
      N900 is always sent: no ledger line it writes can be zero or negative. */
  lemma WithdrawalSplits(gross: int, percent: int)
    requires MIN_PAYOUT_KOBO <= gross && IsSafeInteger(gross) && 0 <= percent <= 100
    ensures ComputeWithdrawal(gross, percent).Ok?
    ensures var b := ComputeWithdrawal(gross, percent).value;
            && b.gross == gross == b.net + b.fee
            && 0 <= b.fee <= b.feeBeforeDiscount == WithdrawalFee(gross).value
            && b.discount == b.feeBeforeDiscount - b.fee
            && 90_000 <= b.net <= gross
            && (percent == 0 ==> b.fee == b.feeBeforeDiscount)
            && (percent == 100 ==> b.fee == 0)
  {
    DiscountBounds(WithdrawalFee(gross).value, percent);
  }

  /** The fee is 100 naira below 50,000 and 200 from there on, less the discount; an amount that is not
      kobo, or a discount outside 0 to 100 percent, is refused. */
  lemma WithdrawalFeeMeans(gross: int, percent: int)
    ensures ComputeWithdrawal(gross, percent).Ok? <==> 0 <= gross <= 9_007_199_254_740_991 && 0 <= percent <= 100
    ensures ComputeWithdrawal(gross, percent).Ok? ==>
      var b, full := ComputeWithdrawal(gross, percent).value, if gross < 5_000_000 then 10_000 else 20_000;
      && IsHalfUp(full * percent, 100, full - b.fee)
      && b == Breakdown(gross, b.fee, full, full - b.fee, gross - b.fee)
  {
    if 0 <= percent <= 100 { DiscountBounds(if gross < 5_000_000 then 10_000 else 20_000, percent); }
  }

  function NetOf(gross: int, percent: int): int {
    match ComputeWithdrawal(gross, percent) case Ok(b) => b.net case Err(_) => 0
  }

  /** The least amount ever sent is N900, and only on the smallest withdrawal at full fee. */
  lemma LeastNet(gross: int, percent: int)
    requires MIN_PAYOUT_KOBO <= gross && IsSafeInteger(gross) && 0 <= percent <= 100
    ensures NetOf(gross, percent) == 90_000
       <==> gross == MIN_PAYOUT_KOBO && DiscountedFee(WITHDRAWAL_FEE_LOW_KOBO, percent) == Ok(WITHDRAWAL_FEE_LOW_KOBO)
  {
    WithdrawalSplits(gross, percent);
  }

  lemma UndiscountedNet(gross: int)
    requires MIN_PAYOUT_KOBO <= gross && IsSafeInteger(gross)
    ensures NetOf(gross, 0) == gross - (if gross < WITHDRAWAL_FEE_THRESHOLD_KOBO then WITHDRAWAL_FEE_LOW_KOBO else WITHDRAWAL_FEE_HIGH_KOBO)
  {
    WithdrawalSplits(gross, 0);
  }

  /** Asking for more sends less exactly when the two amounts straddle the N50,000 threshold
      less than the N100 step in the fee apart. */
  lemma ThresholdDip(a: int, b: int)
    requires MIN_PAYOUT_KOBO <= a < b && IsSafeInteger(b)
    ensures NetOf(b, 0) < NetOf(a, 0)
       <==> a < WITHDRAWAL_FEE_THRESHOLD_KOBO <= b && b - a < WITHDRAWAL_FEE_HIGH_KOBO - WITHDRAWAL_FEE_LOW_KOBO
  {
    UndiscountedNet(a);
    UndiscountedNet(b);
  }

  // ---------------------------------------------------------------- allocation

  datatype Share = Share(i: nat, rem: nat)

  /** Larger remainder first, then earlier position. */
  predicate Outranks(a: Share, b: Share) {
    a.rem > b.rem || (a.rem == b.rem && a.i <= b.i)
  }

  function Floor(total: nat, weights: seq<nat>, i: nat): nat
    requires i < |weights| && 0 < Sum(weights)
  {
    total * weights[i] / Sum(weights)
  }

  function Rem(total: nat, weights: seq<nat>, i: nat): nat
    requires i < |weights| && 0 < Sum(weights)
  {
    total * weights[i] % Sum(weights)
  }

  function Floors(total: nat, weights: seq<nat>): (f: seq<int>)
    requires 0 < Sum(weights)
    ensures |f| == |weights| && forall i :: 0 <= i < |f| ==> f[i] == Floor(total, weights, i)
  {
    seq(|weights|, i requires 0 <= i < |weights| => Floor(total, weights, i))
  }

  ghost function Rems(total: nat, weights: seq<nat>): (r: seq<int>)
    requires 0 < Sum(weights)
    ensures |r| == |weights| && forall i :: 0 <= i < |r| ==> r[i] == Rem(total, weights, i)
  {
    seq(|weights|, i requires 0 <= i < |weights| => Rem(total, weights, i))
  }

  function Shares(total: nat, weights: seq<nat>): (s: seq<Share>)
    requires 0 < Sum(weights)
    ensures |s| == |weights| && forall i :: 0 <= i < |s| ==> s[i] == Share(i, Rem(total, weights, i))
  {
    seq(|weights|, i requires 0 <= i < |weights| => Share(i, Rem(total, weights, i)))
  }

  /** What largest-remainder apportionment means: the parts add up, each is its exact share
      rounded down or one more, and the extra units go to the largest remainders. */
  ghost predicate LargestRemainder(total: nat, weights: seq<nat>, parts: seq<int>) {
    && |parts| == |weights|
    && 0 < Sum(weights)
    && Sum(parts) == total
    && (forall i :: 0 <= i < |parts| ==> Floor(total, weights, i) <= parts[i] <= Floor(total, weights, i) + 1)
    && (forall i, j :: 0 <= i < |parts| && 0 <= j < |parts|
          && parts[i] == Floor(total, weights, i) + 1 && parts[j] == Floor(total, weights, j)
          ==> Outranks(Share(i, Rem(total, weights, i)), Share(j, Rem(total, weights, j))))
  }

  function RankedShares(total: nat, weights: seq<nat>): seq<Share>
    requires 0 < Sum(weights)
  {
    Sort(Outranks, Shares(total, weights))
  }

  function Position(order: seq<Share>, i: nat): nat {
    if order == [] || order[0].i == i then 0 else 1 + Position(order[1..], i)
  }

  /** The floors, with one extra unit for each of the k highest-ranked shares. */
  function Given(total: nat, weights: seq<nat>, k: nat): (r: seq<int>)
    requires 0 < Sum(weights)
    ensures |r| == |weights|
  {
    var order := RankedShares(total, weights);
    seq(|weights|, i requires 0 <= i < |weights| => Floor(total, weights, i) + if Position(order, i) < k then 1 else 0)
  }

  function EvenParts(total: nat, n: nat): seq<int>
    requires 0 < n
  {
    seq(n, i => total / n)
  }

  /** The split of `total` over `weights`. */
  function Apportioned(total: nat, weights: seq<nat>): seq<int>
    requires 0 <= Sum(weights)
  {
    if weights == [] then []
    else if Sum(weights) == 0 then
      var even := EvenParts(total, |weights|);
      even[0 := even[0] + total - Sum(even)]
    else
      UnitsLeft(total, weights);
      Given(total, weights, total - Sum(Floors(total, weights)))
  }

  /** Always the whole total, and by largest remainder whenever there is anything to weigh. */
  lemma ApportionedCorrect(total: nat, weights: seq<nat>)
    ensures 0 <= Sum(weights)
    ensures |Apportioned(total, weights)| == |weights|
    ensures weights != [] ==> Sum(Apportioned(total, weights)) == total
    ensures 0 < Sum(weights) ==> LargestRemainder(total, weights, Apportioned(total, weights))
    ensures forall i :: 0 <= i < |weights| ==> 0 <= Apportioned(total, weights)[i]
  {
    SumNonNegative(weights);
    if weights != [] {
      if Sum(weights) == 0 {
        EvenSplit(total, EvenParts(total, |weights|));
      } else {
        LargestFirst(total, weights);
        assert forall i :: 0 <= i < |weights| ==> 0 <= Floor(total, weights, i) <= Apportioned(total, weights)[i];
      }
    }
  }

  /** When nothing weighs anything it is shared evenly, with what is left over on the first part. */
  lemma NothingWeighed(total: nat, weights: seq<nat>, i: nat)
    requires Sum(weights) == 0 && i < |weights|
    ensures |Apportioned(total, weights)| == |weights|
    ensures Apportioned(total, weights)[i] == total / |weights| + if i == 0 then total % |weights| else 0
  {
    EvenSplit(total, EvenParts(total, |weights|));
  }

  method Allocate(total: int, weights: seq<nat>) returns (r: Result<seq<int>, RangeError>)
    ensures 0 <= Sum(weights)
    ensures r == if IsKobo(total) then Ok(Apportioned(total, weights)) else Err(RangeError)
  {
    SumNonNegative(weights);
    if !IsKobo(total) { return Err(RangeError); }
    if weights == [] { return Ok([]); }
    var sum := Sum(weights);
    if sum == 0 {
      var even := EvenParts(total, |weights|);
      even := even[0 := even[0] + (total - Sum(even))];
      return Ok(even);
    }
    UnitsLeft(total, weights);
    var parts := HandOut(total, weights, total - Sum(Floors(total, weights)));
    r := Ok(parts);
  }

  /** Gives the units left over by rounding down, one each, in order of remainder. */
  method HandOut(total: nat, weights: seq<nat>, units: nat) returns (parts: seq<int>)
    requires 0 < Sum(weights) && units <= |weights|
    ensures parts == Given(total, weights, units)
  {
    parts := Floors(total, weights);
    var left, order, k := units, RankedShares(total, weights), 0;
    RankedCount(total, weights);
    NothingGiven(total, weights);
    while k < |order| && left > 0
      invariant 0 <= k <= |order| && left == units - k && 0 <= left
      invariant parts == Given(total, weights, k)
    {
      var i := order[k].i;
      GiveOne(total, weights, k);
      parts := parts[i := parts[i] + 1];
      left := left - 1;
      k := k + 1;
    }
  }

  lemma RankedCount(total: nat, weights: seq<nat>)
    requires 0 < Sum(weights)
    ensures |RankedShares(total, weights)| == |weights|
    ensures forall k :: 0 <= k < |weights| ==> RankedShares(total, weights)[k].i < |weights|
  {
    SharesInOrder(Shares(total, weights), RankedShares(total, weights));
  }

  lemma NothingGiven(total: nat, weights: seq<nat>)
    requires 0 < Sum(weights)
    ensures Given(total, weights, 0) == Floors(total, weights)
  {
  }

  lemma {:induction false} PositionIs(order: seq<Share>, x: nat)
    requires x < |order| && forall a, b :: 0 <= a < b < |order| ==> order[a].i != order[b].i
    ensures Position(order, order[x].i) == x
  {
    if x != 0 { PositionIs(order[1..], x - 1); }
  }

  lemma GiveOne(total: nat, weights: seq<nat>, k: nat)
    requires 0 < Sum(weights) && k < |weights|
    ensures |RankedShares(total, weights)| == |weights| && RankedShares(total, weights)[k].i < |weights|
    ensures var i := RankedShares(total, weights)[k].i;
      Given(total, weights, k + 1) == Given(total, weights, k)[i := Given(total, weights, k)[i] + 1]
  {
    RankedCount(total, weights);
    forall i | 0 <= i < |weights| ensures Position(RankedShares(total, weights), i) == k <==> i == RankedShares(total, weights)[k].i {
      KthPosition(total, weights, k, i);
    }
  }

  lemma KthPosition(total: nat, weights: seq<nat>, k: nat, i: nat)
    requires 0 < Sum(weights) && k < |weights| && i < |weights|
    ensures |RankedShares(total, weights)| == |weights| && RankedShares(total, weights)[k].i < |weights|
    ensures Position(RankedShares(total, weights), i) == k <==> i == RankedShares(total, weights)[k].i
  {
    var order := RankedShares(total, weights);
    SharesInOrder(Shares(total, weights), order);
    var x :| 0 <= x < |order| && order[x] == Shares(total, weights)[i];
    PositionIs(order, x);
  }

  lemma {:induction false} GivenSum(total: nat, weights: seq<nat>, k: nat)
    requires 0 < Sum(weights) && k <= |weights|
    ensures Sum(Given(total, weights, k)) == Sum(Floors(total, weights)) + k
  {
    if k == 0 {
      assert Given(total, weights, 0) == Floors(total, weights);
    } else {
      GivenSum(total, weights, k - 1);
      GiveOne(total, weights, k - 1);
      var before, i := Given(total, weights, k - 1), RankedShares(total, weights)[k - 1].i;
      SumUpdate(before, i, before[i] + 1);
    }
  }

  lemma EarlierOutranks(total: nat, weights: seq<nat>, i: nat, j: nat)
    requires 0 < Sum(weights) && i < |weights| && j < |weights|
    requires Position(RankedShares(total, weights), i) < Position(RankedShares(total, weights), j)
    ensures Outranks(Share(i, Rem(total, weights, i)), Share(j, Rem(total, weights, j)))
  {
    var order, shares := RankedShares(total, weights), Shares(total, weights);
    SharesInOrder(shares, order);
    var x :| 0 <= x < |order| && order[x] == shares[i];
    var y :| 0 <= y < |order| && order[y] == shares[j];
    PositionIs(order, x);
    PositionIs(order, y);
  }

  /** Handing one unit each to the highest-ranked shares is largest-remainder apportionment. */
  lemma LargestFirst(total: nat, weights: seq<nat>)
    requires 0 < Sum(weights)
    ensures LargestRemainder(total, weights, Apportioned(total, weights))
  {
    UnitsLeft(total, weights);
    var k := total - Sum(Floors(total, weights));
    GivenSum(total, weights, k);
    GivenIsLargest(total, weights, k);
    WeighedIsGiven(total, weights, k);
  }

  lemma WeighedIsGiven(total: nat, weights: seq<nat>, k: nat)
    requires 0 < Sum(weights) && k == total - Sum(Floors(total, weights))
    ensures Apportioned(total, weights) == Given(total, weights, k)
  {
  }

  lemma GivenIsLargest(total: nat, weights: seq<nat>, k: nat)
    requires 0 < Sum(weights) && Sum(Given(total, weights, k)) == total
    ensures LargestRemainder(total, weights, Given(total, weights, k))
  {
    var parts := Given(total, weights, k);
    forall i | 0 <= i < |parts| ensures Floor(total, weights, i) <= parts[i] <= Floor(total, weights, i) + 1 {
      GivenByRank(total, weights, k, i, i);
    }
    forall i, j | 0 <= i < |parts| && 0 <= j < |parts|
      && parts[i] == Floor(total, weights, i) + 1 && parts[j] == Floor(total, weights, j)
      ensures Outranks(Share(i, Rem(total, weights, i)), Share(j, Rem(total, weights, j)))
    {
      GivenByRank(total, weights, k, i, j);
    }
  }

  /** Each share gets its floor or one more, and one more only ahead of those that do not. */
  ghost predicate GivenInOrder(total: nat, weights: seq<nat>, k: nat, i: nat, j: nat)
    requires 0 < Sum(weights) && i < |weights| && j < |weights|
  {
    var parts := Given(total, weights, k);
    && Floor(total, weights, i) <= parts[i] <= Floor(total, weights, i) + 1
    && (parts[i] == Floor(total, weights, i) + 1 && parts[j] == Floor(total, weights, j)
        ==> Outranks(Share(i, Rem(total, weights, i)), Share(j, Rem(total, weights, j))))
  }

  lemma GivenByRank(total: nat, weights: seq<nat>, k: nat, i: nat, j: nat)
    requires 0 < Sum(weights) && i < |weights| && j < |weights|
    ensures GivenInOrder(total, weights, k, i, j)
  {
    var order := RankedShares(total, weights);
    if Position(order, i) < k <= Position(order, j) { EarlierOutranks(total, weights, i, j); }
  }

  lemma EvenSplit(total: nat, even: seq<int>)
    requires even != [] && forall i :: 0 <= i < |even| ==> even[i] == total / |even|
    ensures total - Sum(even) == total % |even|
    ensures Sum(even[0 := even[0] + total - Sum(even)]) == total
  {
    SumConstant(even, total / |even|);
    DivMod(total, |even|);
    SumUpdate(even, 0, even[0] + total - Sum(even));
  }

  lemma {:induction false} SumConstant(s: seq<int>, c: int)
    requires forall i :: 0 <= i < |s| ==> s[i] == c
    ensures Sum(s) == |s| * c
  {
    if s != [] {
      SumConstant(s[..|s| - 1], c);
      assert (|s| - 1) * c + c == |s| * c;
    }
  }

  /** The units lost to rounding down are exactly what the remainders pay for, and fewer than
      there are shares. */
  lemma RemaindersPay(total: nat, weights: seq<nat>)
    requires 0 < Sum(weights)
    ensures Sum(weights) * (total - Sum(Floors(total, weights))) == Sum(Rems(total, weights))
  {
    var S, floors, rems := Sum(weights), Floors(total, weights), Rems(total, weights);
    forall i | 0 <= i < |weights| ensures total * weights[i] == S * floors[i] + rems[i] {
      DivMod(total * weights[i], S);
    }
    ScaledSums(total, weights, S, floors, rems);
    Rearrange(total, S, Sum(floors), Sum(rems));
  }

  lemma UnitsLeft(total: nat, weights: seq<nat>)
    requires 0 < Sum(weights)
    ensures 0 <= total - Sum(Floors(total, weights)) < |weights|
  {
    RemaindersPay(total, weights);
    var S, rems := Sum(weights), Rems(total, weights);
    SumNonNegative(rems);
    SumBelow(rems, S);
    LeftBounds(S, total - Sum(Floors(total, weights)), Sum(rems), |weights|);
  }

  lemma Rearrange(t: int, S: int, f: int, r: int)
    requires t * S == S * f + r
    ensures S * (t - f) == r
  {
    assert S * (t - f) == S * t - S * f;
  }

  lemma LeftBounds(S: nat, left: int, rems: int, n: nat)
    requires 0 < S && S * left == rems && 0 <= rems && (rems < n * S || (n == 0 && rems == 0))
    ensures 0 <= left <= n && (0 < n ==> left < n)
  {
    if left < 0 {
      MulMonotone(S, left, -1);
    } else if n <= left {
      MulMonotone(S, n, left);
    }
  }

  lemma {:induction false} ScaledSums(t: int, w: seq<int>, S: int, f: seq<int>, r: seq<int>)
    requires |w| == |f| == |r|
    requires forall i :: 0 <= i < |w| ==> t * w[i] == S * f[i] + r[i]
    ensures t * Sum(w) == S * Sum(f) + Sum(r)
  {
    if w != [] {
      var n := |w| - 1;
      ScaledSums(t, w[..n], S, f[..n], r[..n]);
      ScaledStep(t, S, Sum(w[..n]), w[n], Sum(f[..n]), f[n], Sum(r[..n]), r[n]);
    }
  }

  lemma ScaledStep(t: int, S: int, w: int, x: int, f: int, y: int, r: int, z: int)
    requires t * w == S * f + r && t * x == S * y + z
    ensures t * (w + x) == S * (f + y) + (r + z)
  {
    assert t * (w + x) == t * w + t * x;
    assert S * (f + y) == S * f + S * y;
  }

  lemma {:induction false} SumBelow(s: seq<int>, b: int)
    requires forall i :: 0 <= i < |s| ==> s[i] < b
    ensures Sum(s) <= |s| * b && (s != [] ==> Sum(s) < |s| * b)
  {
    if s != [] {
      SumBelow(s[..|s| - 1], b);
      assert (|s| - 1) * b + b == |s| * b;
    }
  }

  lemma OutranksIsTotal()
    ensures TotalOrder(Outranks)
  {
  }

  lemma SharesInOrder(shares: seq<Share>, order: seq<Share>)
    requires forall i :: 0 <= i < |shares| ==> shares[i].i == i
    requires order == Sort(Outranks, shares)
    ensures |order| == |shares| && Sorted(Outranks, order)
    ensures forall x :: 0 <= x < |order| ==> order[x].i < |shares| && order[x] == shares[order[x].i]
    ensures forall x, y :: 0 <= x < y < |order| ==> order[x].i != order[y].i
    ensures forall i :: 0 <= i < |shares| ==> exists x :: 0 <= x < |order| && order[x] == shares[i]
  {
    OutranksIsTotal();
    SortCorrect(Outranks, shares);
    assert Distinct(shares);
    SortKeepsDistinct(Outranks, shares);
    forall x | 0 <= x < |order| ensures order[x].i < |shares| && order[x] == shares[order[x].i] {
      assert order[x] in shares;
    }
    forall i | 0 <= i < |shares| ensures exists x :: 0 <= x < |order| && order[x] == shares[i] {
      assert shares[i] in order;
    }
  }

  /** A share that is already exact never gets the extra unit. */
  lemma ExactSharesStayExact(total: nat, weights: seq<nat>, parts: seq<int>, z: nat)
    requires LargestRemainder(total, weights, parts) && z < |parts| && Rem(total, weights, z) == 0
    ensures parts[z] == Floor(total, weights, z)
  {
    if parts[z] == Floor(total, weights, z) + 1 {
      var n, S, floors, rems := |weights|, Sum(weights), Floors(total, weights), Rems(total, weights);
      RemaindersPay(total, weights);
      var slack: seq<int> := seq(n, i requires 0 <= i < n => S * (parts[i] - floors[i]) - rems[i]);
      forall i | 0 <= i < n ensures slack[i] >= 0 {
        if parts[i] == floors[i] {
          assert Outranks(Share(z, 0), Share(i, rems[i]));
          assert S * 0 == 0;
        } else {
          assert parts[i] - floors[i] == 1;
          assert S * 1 == S;
        }
      }
      SlackSum(parts, floors, rems, S, slack);
      assert S * (Sum(parts) - Sum(floors)) - Sum(rems) == 0;
      assert slack[z] == S * 1 - 0;
      SumNonNegative(slack);
    }
  }

  lemma {:induction false} SlackSum(p: seq<int>, f: seq<int>, r: seq<int>, S: int, slack: seq<int>)
    requires |p| == |f| == |r| == |slack|
    requires forall i :: 0 <= i < |p| ==> slack[i] == S * (p[i] - f[i]) - r[i]
    ensures Sum(slack) == S * (Sum(p) - Sum(f)) - Sum(r)
  {
    if p != [] {
      var n := |p| - 1;
      SlackSum(p[..n], f[..n], r[..n], S, slack[..n]);
      assert S * (Sum(p) - Sum(f)) == S * (Sum(p[..n]) - Sum(f[..n])) + S * (p[n] - f[n]);
    }
  }

  /** A larger weight never gets a smaller part. */
  lemma LargerWeightLargerPart(total: nat, weights: seq<nat>, parts: seq<int>, i: nat, j: nat)
    requires LargestRemainder(total, weights, parts) && i < |parts| && j < |parts| && weights[i] < weights[j]
    ensures parts[i] <= parts[j]
  {
    if total == 0 {
      ExactSharesStayExact(total, weights, parts, i);
    } else {
      MulStrict(total, weights[i], weights[j]);
    }
    DivMonotone(total * weights[i], total * weights[j], Sum(weights));
  }

  /** The rule leaves no freedom: two apportionments that obey it are the same. */
  lemma ApportionmentUnique(total: nat, weights: seq<nat>, a: seq<int>, b: seq<int>)
    requires LargestRemainder(total, weights, a) && LargestRemainder(total, weights, b)
    ensures a == b
  {
    forall i | 0 <= i < |a| ensures a[i] == b[i] {
      NotMore(total, weights, a, b, i);
      NotMore(total, weights, b, a, i);
    }
  }

  lemma Dominates(total: nat, weights: seq<nat>, a: seq<int>, b: seq<int>, i: nat, j: nat)
    requires LargestRemainder(total, weights, a) && LargestRemainder(total, weights, b)
    requires i < |a| && j < |a| && a[i] > b[i]
    ensures b[j] <= a[j]
  {
    var si, sj := Share(i, Rem(total, weights, i)), Share(j, Rem(total, weights, j));
    assert i != j && a[j] < b[j] ==> Outranks(si, sj) && Outranks(sj, si);
  }

  lemma NotMore(total: nat, weights: seq<nat>, a: seq<int>, b: seq<int>, i: nat)
    requires LargestRemainder(total, weights, a) && LargestRemainder(total, weights, b)
    requires i < |a|
    ensures a[i] <= b[i]
  {
    if a[i] > b[i] {
      var gap: seq<int> := seq(|a|, k requires 0 <= k < |a| => a[k] - b[k]);
      forall j | 0 <= j < |a| ensures 0 <= gap[j] {
        Dominates(total, weights, a, b, i, j);
      }
      SumDifference(a, b, gap);
      SumNonNegative(gap);
    }
  }

  lemma {:induction false} SumDifference(a: seq<int>, b: seq<int>, d: seq<int>)
    requires |a| == |b| == |d|
    requires forall i :: 0 <= i < |a| ==> d[i] == a[i] - b[i]
    ensures Sum(d) == Sum(a) - Sum(b)
  {
    if a != [] { SumDifference(a[..|a| - 1], b[..|b| - 1], d[..|d| - 1]); }
  }
}
