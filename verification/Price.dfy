/**
 * The price rule. The chaincode and the backend each implement it, with
 * truncating and with flooring 64-bit division.
 */
module Price {
  import opened Types

  const INT64: int := 0x8000_0000_0000_0000

  predicate Fits64(n: int) {
    -INT64 <= n < INT64
  }

  /** Two's-complement wrap-around of a 64-bit result. */
  function Wrap64(n: int): (r: int)
    ensures Fits64(r)
    ensures Fits64(n) ==> r == n
  {
    (n + INT64) % (2 * INT64) - INT64
  }

  function Mul64(a: int, b: int): int {
    Wrap64(a * b)
  }

  /** Truncating division, as `/` in Go and in Java. */
  function Quot(a: int, b: int): int
    requires b > 0
  {
    if a >= 0 then a / b else -(-a / b)
  }

  function Rem(a: int, b: int): int
    requires b > 0
  {
    a - b * Quot(a, b)
  }

  /** `Math.floorDiv` for a positive divisor: truncate, then correct. */
  function FloorDiv(a: int, b: int): int
    requires b > 0
  {
    var q := Quot(a, b);
    if a < 0 && Mul64(q, b) != a then q - 1 else q
  }

  predicate MoneyOk(purchase: int, retail: int) {
    0 < purchase <= 1_000_000_000 && 0 <= retail <= 1_000_000_000
  }

  predicate ThresholdOk(threshold: int) {
    0 <= threshold <= 100_000
  }

  /** The chaincode's rule. */
  function PriceScore(purchase: int, retail: int, threshold: int): Result<Score> {
    var difference := Wrap64(retail - purchase);
    :- Need(MoneyOk(purchase, retail), InvalidMoney);
    :- Need(ThresholdOk(threshold), PolicyMismatch);
    var numerator := Mul64(difference, 10000);
    var truncated := Quot(numerator, purchase);
    var increase := if numerator < 0 && Rem(numerator, purchase) != 0 then truncated - 1 else truncated;
    Ok(Score(increase, if numerator > Mul64(purchase, threshold) then ReviewRequired else NoSignal))
  }

  /** The backend's rule. */
  function BackendScore(purchase: int, retail: int, threshold: int): Result<Score> {
    var difference := Wrap64(retail - purchase);
    :- Need(MoneyOk(purchase, retail), InvalidMoney);
    :- Need(ThresholdOk(threshold), PolicyMismatch);
    var n := Mul64(difference, 10000);
    var signal := n > Mul64(purchase, threshold);
    Ok(Score(FloorDiv(n, purchase), if signal then ReviewRequired else NoSignal))
  }

  // ------------------------------------------------------------- arithmetic

  lemma MulMono(c: int, x: int, y: int)
    requires c >= 0 && x <= y
    ensures c * x <= c * y
  {
    assert c * (y - x) >= 0;
  }

  lemma DivDef(a: int, b: int)
    requires b > 0
    ensures a == b * (a / b) + a % b && 0 <= a % b < b
  {
  }

  lemma MulRange(a: int, b: int, x: int, y: int)
    requires 0 <= a <= x && 0 <= b <= y
    ensures 0 <= a * b <= x * y
  {
    assert a * b <= x * b <= x * y;
  }

  /** No product of the rule leaves 64 bits on the admitted bounds. */
  lemma ProductsFit(purchase: int, retail: int, threshold: int)
    requires MoneyOk(purchase, retail) && ThresholdOk(threshold)
    ensures Wrap64(retail - purchase) == retail - purchase
    ensures Mul64(Wrap64(retail - purchase), 10000) == (retail - purchase) * 10000
    ensures Mul64(purchase, threshold) == purchase * threshold
  {
    MulRange(purchase, threshold, 1_000_000_000, 100_000);
  }

  lemma QuotRange(a: int, b: int)
    requires b > 0
    ensures a >= 0 ==> 0 <= Rem(a, b) < b && 0 <= Quot(a, b) <= a
    ensures a < 0 ==> -b < Rem(a, b) <= 0 && a <= Quot(a, b) <= 0
  {
    var m := if a >= 0 then a else -a;
    var q := m / b;
    DivDef(m, b);
    if q < 0 {
      MulMono(b, q, -1);
    }
    MulMono(q, 1, b);
    assert b * -q == -(b * q);
  }

  lemma UniqueFloor(a: int, b: int, q: int)
    requires b > 0 && 0 <= a - b * q < b
    ensures q == a / b
  {
    var d := a / b;
    DivDef(a, b);
    if q < d {
      MulMono(b, q + 1, d);
      assert false;
    } else if q > d {
      MulMono(b, d + 1, q);
      assert false;
    }
  }

  /** Truncate-and-correct, `floorDiv` and the mathematical floor are one number. */
  lemma BothFloor(a: int, b: int)
    requires b > 0 && Fits64(a) && a > -INT64
    ensures FloorDiv(a, b) == a / b
    ensures (if a < 0 && Rem(a, b) != 0 then Quot(a, b) - 1 else Quot(a, b)) == a / b
  {
    QuotRange(a, b);
    var q := Quot(a, b);
    assert b * q == a - Rem(a, b);
    assert q * b == b * q;
    assert Mul64(q, b) == q * b;
    if a < 0 && Rem(a, b) != 0 {
      assert b * (q - 1) == b * q - b;
      UniqueFloor(a, b, q - 1);
    } else {
      UniqueFloor(a, b, q);
    }
  }

  // -------------------------------------------------------------- theorems

  /** When there is no score, and which input is to blame; amounts are checked before the threshold. */
  lemma ScoreRefused(purchase: int, retail: int, threshold: int)
    ensures PriceScore(purchase, retail, threshold) == Err(InvalidMoney)
            <==> !(1 <= purchase <= 1_000_000_000 && 0 <= retail <= 1_000_000_000)
    ensures PriceScore(purchase, retail, threshold) == Err(PolicyMismatch)
            <==> 1 <= purchase <= 1_000_000_000 && 0 <= retail <= 1_000_000_000 && !(0 <= threshold <= 100_000)
    ensures PriceScore(purchase, retail, threshold).Ok?
            <==> 1 <= purchase <= 1_000_000_000 && 0 <= retail <= 1_000_000_000 && 0 <= threshold <= 100_000
  {
    hide Mul64;
  }

  /** What an accepted score is, over the unbounded integers. */
  lemma ScoreMeaning(purchase: int, retail: int, threshold: int)
    requires MoneyOk(purchase, retail) && ThresholdOk(threshold)
    ensures var s := PriceScore(purchase, retail, threshold);
            && s.Ok?
            && s.value.increase == (retail - purchase) * 10000 / purchase
            && (s.value.verdict.ReviewRequired? <==> (retail - purchase) * 10000 > purchase * threshold)
  {
    ProductsFit(purchase, retail, threshold);
    BothFloor((retail - purchase) * 10000, purchase);
  }

  /** The two implementations agree on every input, refusals included. */
  lemma ImplementationsAgree(purchase: int, retail: int, threshold: int)
    ensures PriceScore(purchase, retail, threshold) == BackendScore(purchase, retail, threshold)
  {
    if MoneyOk(purchase, retail) && ThresholdOk(threshold) {
      ProductsFit(purchase, retail, threshold);
      BothFloor((retail - purchase) * 10000, purchase);
    }
  }

  lemma RealMulMono(c: real, x: real, y: real)
    requires c > 0.0
    ensures x > y <==> c * x > c * y
  {
    assert c * (x - y) == c * x - c * y;
  }

  lemma RatioCompare(d: real, p: real, t: real)
    requires p > 0.0
    ensures d / p > t / 10000.0 <==> d * 10000.0 > p * t
  {
    var ratio, limit := d / p, t / 10000.0;
    assert p * ratio == d;
    assert limit * 10000.0 == t;
    RealMulMono(p, ratio, limit);
    assert p * limit * 10000.0 == p * (limit * 10000.0);
  }

  /** Review is required exactly when the real increase exceeds the real threshold. */
  lemma ExactRatio(purchase: int, retail: int, threshold: int)
    requires MoneyOk(purchase, retail) && ThresholdOk(threshold)
    ensures PriceScore(purchase, retail, threshold).value.verdict.ReviewRequired?
       <==> (retail - purchase) as real / purchase as real > threshold as real / 10000.0
  {
    hide PriceScore;
    ScoreMeaning(purchase, retail, threshold);
    RatioCompare((retail - purchase) as real, purchase as real, threshold as real);
    assert ((retail - purchase) * 10000) as real == (retail - purchase) as real * 10000.0;
    assert (purchase * threshold) as real == purchase as real * threshold as real;
  }

  lemma BoundaryArithmetic(n: int, p: int, t: int)
    requires p > 0
    ensures n / p > t ==> n > p * t
    ensures n > p * t ==> n / p >= t
    ensures n > p * t && n / p == t ==> n % p != 0
  {
    var q := n / p;
    DivDef(n, p);
    if q > t {
      MulMono(p, t + 1, q);
    } else if q < t {
      MulMono(p, q + 1, t);
    }
  }

  /** The displayed basis points and the verdict can differ only in the rounded-away part. */
  lemma DisplayedBoundary(purchase: int, retail: int, threshold: int)
    requires MoneyOk(purchase, retail) && ThresholdOk(threshold)
    ensures var s := PriceScore(purchase, retail, threshold).value;
            && (s.increase > threshold ==> s.verdict.ReviewRequired?)
            && (s.verdict.ReviewRequired? ==> s.increase >= threshold)
            && (s.verdict.ReviewRequired? && s.increase == threshold ==> (retail - purchase) * 10000 % purchase != 0)
  {
    hide PriceScore;
    ScoreMeaning(purchase, retail, threshold);
    BoundaryArithmetic((retail - purchase) * 10000, purchase, threshold);
  }

  lemma FloorIdentities(p: int, q: int, x: int, y: int)
    ensures q * (p * x) == p * q * x
    ensures p * (q * y + q - 1) == p * q * (y + 1) - p
  {
  }

  lemma FloorMonotone(a: int, b: int, p: int, q: int)
    requires p > 0 && q > 0 && a * q <= b * p
    ensures a / p <= b / q
  {
    var x, y := a / p, b / q;
    DivDef(a, p);
    DivDef(b, q);
    var pq := p * q;
    FloorIdentities(p, q, x, y);
    MulMono(q, p * x, a);
    MulMono(p, b, q * y + q - 1);
    if x > y {
      MulMono(pq, y + 1, x);
      assert false;
    }
  }

  lemma MulSwap(p: int, q: int, t: int)
    ensures p * (q * t) == q * (p * t)
  {
  }

  lemma SignalMonotone(a: int, b: int, p: int, q: int, t: int)
    requires p > 0 && q > 0 && a * q <= b * p && a > p * t
    ensures b > q * t
  {
    MulMono(q, p * t + 1, a);
    MulSwap(p, q, t);
    if b <= q * t {
      MulMono(p, b, q * t);
      assert false;
    }
  }

  lemma CrossProducts(p1: int, r1: int, p2: int, r2: int)
    requires 0 < p2 <= p1 && 0 <= r1 <= r2
    ensures (r1 - p1) * 10000 * p2 <= (r2 - p2) * 10000 * p1
  {
    MulMono(p2, r1, r2);
    MulMono(r2, p2, p1);
    assert (r1 - p1) * p2 <= (r2 - p2) * p1;
    assert (r1 - p1) * 10000 * p2 == 10000 * ((r1 - p1) * p2);
    assert (r2 - p2) * 10000 * p1 == 10000 * ((r2 - p2) * p1);
  }

  /** A dearer retail price or a cheaper purchase price never lowers the score or clears a signal. */
  lemma ScoreMonotone(purchase1: int, retail1: int, purchase2: int, retail2: int, threshold: int)
    requires MoneyOk(purchase1, retail1) && MoneyOk(purchase2, retail2) && ThresholdOk(threshold)
    requires retail1 <= retail2 && purchase2 <= purchase1
    ensures var s1, s2 := PriceScore(purchase1, retail1, threshold).value,
            PriceScore(purchase2, retail2, threshold).value;
            s1.increase <= s2.increase && (s1.verdict.ReviewRequired? ==> s2.verdict.ReviewRequired?)
  {
    hide PriceScore;
    ScoreMeaning(purchase1, retail1, threshold);
    ScoreMeaning(purchase2, retail2, threshold);
    var a, b := (retail1 - purchase1) * 10000, (retail2 - purchase2) * 10000;
    CrossProducts(purchase1, retail1, purchase2, retail2);
    FloorMonotone(a, b, purchase1, purchase2);
    if a > purchase1 * threshold {
      SignalMonotone(a, b, purchase1, purchase2, threshold);
    }
  }
}
