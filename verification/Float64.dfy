/** Conversion of a 64-bit integer to float64 (roundTiesToEven, section 4.3.1 of IEEE 754-2008)
    and the provider's ceiling division carried out on such a number. Dividing a float64 by 4 and
    taking its ceiling are exact in this range, so only the conversion rounds. */
module Float64 {
  const TWO53: int := 0x20_0000_0000_0000
  const TWO63: int := 0x8000_0000_0000_0000

  predicate IsInt64(n: int) {
    -TWO63 <= n < TWO63
  }

  /** Distance of neighbouring float64 values at magnitude `m`, at least 1. */
  function Ulp(m: nat): nat {
    if m < TWO53 then 1 else 2 * Ulp(m / 2)
  }

  function Quotient(m: nat, u: nat): nat
    requires u > 0
  {
    m / u
  }

  /** The remainder is rounded away from zero: more than half, or half beside an odd significand. */
  predicate RoundsAway(m: nat)
    requires Ulp(m) > 0
  {
    var u := Ulp(m);
    u < 2 * (m % u) || (u == 2 * (m % u) && (m / u) % 2 == 1)
  }

  function Significand(m: nat): nat
    requires Ulp(m) > 0
  {
    Quotient(m, Ulp(m)) + if RoundsAway(m) then 1 else 0
  }

  function RoundMagnitude(m: nat): nat
    requires Ulp(m) > 0
  {
    Significand(m) * Ulp(m)
  }

  /** Doubling keeps what is known of a distance. */
  lemma DoubledUlp(m: nat, h: nat)
    requires m >= TWO53 && h > 0
    requires m / 2 < TWO53 * h && (h > 1 ==> TWO53 * h <= 2 * (m / 2))
    requires h == 1 || h == 2 || h % 4 == 0
    ensures m < TWO53 * (2 * h) && TWO53 * (2 * h) <= 2 * m
    ensures 2 * h == 2 || (2 * h) % 4 == 0
  {
  }

  lemma {:induction false} UlpBounds(m: nat)
    ensures Ulp(m) > 0
    ensures m < TWO53 * Ulp(m)
    ensures Ulp(m) > 1 ==> TWO53 * Ulp(m) <= 2 * m
    ensures Ulp(m) == 1 || Ulp(m) == 2 || Ulp(m) % 4 == 0
  {
    if m >= TWO53 {
      UlpBounds(m / 2);
      DoubledUlp(m, Ulp(m / 2));
      assert Ulp(m) == 2 * Ulp(m / 2);
    }
  }

  /** float64(n), which is an integer for every 64-bit n. */
  function ToFloat64(n: int): int
  {
    UlpBounds(if n < 0 then -n else n);
    if n < 0 then 0 - RoundMagnitude(-n) else RoundMagnitude(n)
  }

  const PROVIDER_OSD_SIZE_IN_TIB := 4

  /** int(math.Ceil(float64(size) / ProviderOSDSizeInTiB)) */
  function ProviderDeviceSetCount(size: int): int {
    (ToFloat64(size) + PROVIDER_OSD_SIZE_IN_TIB - 1) / PROVIDER_OSD_SIZE_IN_TIB
  }

  /** The conversion loses nothing up to 2^53. */
  lemma ExactBelow53(n: int)
    requires -TWO53 <= n <= TWO53
    ensures ToFloat64(n) == n
  {
    var m: nat := if n < 0 then -n else n;
    if m < TWO53 {
      assert Ulp(m) == 1;
    } else {
      assert Ulp(m / 2) == 1 && Ulp(m) == 2;
    }
  }

  lemma QuotientRemainder(m: nat, u: nat)
    requires u > 0
    ensures m == (m / u) * u + m % u && m % u < u
  {
  }

  /** The rounded magnitude is off by at most half a unit, on the side `RoundsAway` says. */
  lemma RoundingError(m: nat)
    requires Ulp(m) > 0
    ensures RoundsAway(m) ==> m < RoundMagnitude(m) && 2 * (RoundMagnitude(m) - m) <= Ulp(m)
    ensures !RoundsAway(m) ==> RoundMagnitude(m) <= m && 2 * (m - RoundMagnitude(m)) <= Ulp(m)
    ensures !RoundsAway(m) ==> (RoundMagnitude(m) == m <==> m % Ulp(m) == 0)
  {
    var u := Ulp(m);
    QuotientRemainder(m, u);
    assert (m / u + 1) * u == (m / u) * u + u;
  }

  function Distance(a: int, b: int): nat {
    if a < b then b - a else a - b
  }

  lemma ProductsApart(k: int, q: int, u: nat)
    ensures k <= q ==> k * u <= q * u
    ensures k >= q + 1 ==> k * u >= q * u + u
  {
    if k <= q {
      MulMonotone(k, q, u);
    } else {
      MulMonotone(q + 1, k, u);
    }
  }

  /** Rounding half to even, on the number line: `down` and `down + u` are the neighbours, and `other` is no nearer. */
  lemma Nearer(m: nat, q: nat, u: nat, down: nat, other: int)
    requires down <= m < down + u && (other <= down || down + u <= other)
    ensures var away := u < 2 * (m - down) || (u == 2 * (m - down) && q % 2 == 1);
            var r := if away then down + u else down;
            && Distance(m, r) <= Distance(m, other)
            && (Distance(m, r) == Distance(m, other) && other != r ==> (q + if away then 1 else 0) % 2 == 0)
  {
  }

  lemma RoundedBySignificand(m: nat)
    ensures var u := Ulp(m);
            && u > 0 && m == Quotient(m, u) * u + m % u && m % u < u
            && ToFloat64(m) == Quotient(m, u) * u + (if RoundsAway(m) then u else 0)
            && ToFloat64(0 - m) == 0 - ToFloat64(m)
  {
    UlpBounds(m);
    QuotientRemainder(m, Ulp(m));
    assert (m / Ulp(m) + 1) * Ulp(m) == (m / Ulp(m)) * Ulp(m) + Ulp(m);
  }

  /** Of all multiples of the distance between neighbours the result is a nearest one, and of two nearest ones the one
      with the even significand; and so with the other sign. */
  lemma NearestEven(m: nat, k: int)
    ensures var u, r := Ulp(m), ToFloat64(m);
            && u > 0 && ToFloat64(0 - m) == 0 - r
            && Distance(m, r) <= Distance(m, k * u)
            && (Distance(m, r) == Distance(m, k * u) && k * u != r ==>
                  r == Significand(m) * u && Significand(m) % 2 == 0)
  {
    UlpBounds(m);
    var u := Ulp(m);
    RoundedBySignificand(m);
    ProductsApart(k, m / u, u);
    Nearer(m, m / u, u, (m / u) * u, k * u);
  }

  lemma MulMonotone(a: int, b: int, u: nat)
    requires a <= b
    ensures a * u <= b * u
  {
  }

  lemma QuotientMonotone(a: nat, b: nat, u: nat)
    requires u > 0 && a <= b
    ensures a / u <= b / u
    ensures a / u == b / u ==> a % u <= b % u
  {
    QuotientRemainder(a, u);
    QuotientRemainder(b, u);
    if a / u > b / u {
      MulMonotone(b / u + 1, a / u, u);
      assert false;
    }
  }

  lemma {:induction false} UlpMonotone(a: nat, b: nat)
    requires a <= b
    ensures Ulp(a) <= Ulp(b)
    ensures Ulp(a) < Ulp(b) ==> 2 * Ulp(a) <= Ulp(b)
  {
    UlpBounds(b);
    if TWO53 <= a {
      UlpMonotone(a / 2, b / 2);
    } else if TWO53 <= b {
      UlpBounds(b / 2);
    }
  }

  lemma QuotientInBinade(m: nat, u: nat)
    requires u > 0 && m < TWO53 * u
    ensures m / u < TWO53
    ensures TWO53 * u <= 2 * m ==> TWO53 <= 2 * (m / u)
  {
    QuotientRemainder(m, u);
    if m / u >= TWO53 {
      MulMonotone(TWO53, m / u, u);
      assert false;
    }
    if TWO53 * u <= 2 * m && 2 * (m / u) < TWO53 {
      MulMonotone(2 * (m / u) + 2, TWO53, u);
      assert false;
    }
  }

  lemma SignificandInBinade(m: nat)
    requires Ulp(m) > 0
    ensures Significand(m) <= TWO53
    ensures Ulp(m) > 1 ==> TWO53 <= 2 * Significand(m)
  {
    UlpBounds(m);
    QuotientInBinade(m, Ulp(m));
  }

  lemma ScaledBounds(q: nat, u: nat)
    requires q <= TWO53
    ensures q * u <= TWO53 * u
    ensures TWO53 <= 2 * q ==> TWO53 * u <= 2 * (q * u)
  {
    MulMonotone(q, TWO53, u);
    if TWO53 <= 2 * q {
      MulMonotone(TWO53, 2 * q, u);
      assert 2 * q * u == 2 * (q * u);
    }
  }

  /** A rounded magnitude stays inside its binade. */
  lemma RoundingInBinade(m: nat)
    requires Ulp(m) > 0
    ensures RoundMagnitude(m) <= TWO53 * Ulp(m)
    ensures Ulp(m) > 1 ==> TWO53 * Ulp(m) <= 2 * RoundMagnitude(m)
  {
    SignificandInBinade(m);
    ScaledBounds(Significand(m), Ulp(m));
  }

  lemma MagnitudeMonotone(a: nat, b: nat)
    requires a <= b && Ulp(a) > 0 && Ulp(b) > 0
    ensures RoundMagnitude(a) <= RoundMagnitude(b)
  {
    UlpMonotone(a, b);
    if Ulp(a) == Ulp(b) {
      QuotientMonotone(a, b, Ulp(a));
      assert Significand(a) <= Significand(b);
      MulMonotone(Significand(a), Significand(b), Ulp(a));
    } else {
      RoundingInBinade(a);
      RoundingInBinade(b);
      MulMonotone(2 * Ulp(a), Ulp(b), TWO53);
    }
  }

  /** Asking for more never provisions fewer device sets, over all integers. */
  lemma CountMonotone(a: int, b: int)
    requires a <= b
    ensures ToFloat64(a) <= ToFloat64(b)
    ensures ProviderDeviceSetCount(a) <= ProviderDeviceSetCount(b)
  {
    UlpBounds(if a < 0 then -a else a);
    UlpBounds(if b < 0 then -b else b);
    if b < 0 {
      MagnitudeMonotone(-b, -a);
    } else if 0 <= a {
      MagnitudeMonotone(a, b);
    } else {
      assert RoundMagnitude(-a) >= 0 && RoundMagnitude(b) >= 0;
    }
  }

  /** Up to 2^53 the count is the least number of 4 TiB device sets that holds the size. */
  lemma CountIsLeast(size: int, count: int)
    requires -TWO53 <= size <= TWO53
    ensures size <= PROVIDER_OSD_SIZE_IN_TIB * count <==> ProviderDeviceSetCount(size) <= count
  {
    ExactBelow53(size);
  }

  /** The conversion moves `size` down: toward zero if positive, away from zero if negative. */
  predicate RoundsDown(size: int) {
    UlpBounds(if size < 0 then -size else size);
    if size < 0 then RoundsAway(-size)
    else !RoundsAway(size) && size % Ulp(size) != 0
  }

  lemma MultipleOfFour(q: nat, u: nat)
    requires u % 4 == 0 || (u == 2 && q % 2 == 0)
    ensures (q * u) % 4 == 0
  {
    if u == 2 {
      assert q * u == 4 * (q / 2);
    } else {
      var v := u / 4;
      assert q * u == 4 * (q * v);
    }
  }

  /** A magnitude that does not fit is rounded to a multiple of 4, unless it is an odd number
      between 2^53 and 2^54 that goes to the even significand, which is a multiple of 4 too. */
  lemma RoundedIsWholeSets(m: nat)
    requires Ulp(m) > 0 && m % Ulp(m) != 0
    ensures RoundMagnitude(m) % PROVIDER_OSD_SIZE_IN_TIB == 0
  {
    UlpBounds(m);
    var u := Ulp(m);
    if u == 2 {
      assert m % u == 1;
      assert Significand(m) % 2 == 0;
    }
    MultipleOfFour(Significand(m), u);
  }

  lemma CeilOfWholeSets(f: int)
    ensures f <= PROVIDER_OSD_SIZE_IN_TIB * ((f + PROVIDER_OSD_SIZE_IN_TIB - 1) / PROVIDER_OSD_SIZE_IN_TIB)
    ensures f % PROVIDER_OSD_SIZE_IN_TIB == 0 ==>
              PROVIDER_OSD_SIZE_IN_TIB * ((f + PROVIDER_OSD_SIZE_IN_TIB - 1) / PROVIDER_OSD_SIZE_IN_TIB) == f
  {
  }

  lemma MagnitudeMovesIff(m: nat)
    requires Ulp(m) > 0
    ensures RoundsAway(m) <==> m < RoundMagnitude(m)
    ensures !RoundsAway(m) && m % Ulp(m) != 0 <==> RoundMagnitude(m) < m
    ensures RoundMagnitude(m) != m ==> RoundMagnitude(m) % PROVIDER_OSD_SIZE_IN_TIB == 0
  {
    RoundingError(m);
    if m % Ulp(m) != 0 {
      RoundedIsWholeSets(m);
    }
  }

  lemma NegatedWholeSets(f: nat)
    requires f % PROVIDER_OSD_SIZE_IN_TIB == 0
    ensures (0 - f) % PROVIDER_OSD_SIZE_IN_TIB == 0
  {
  }

  lemma NegatedMovesIff(m: nat)
    requires Ulp(m) > 0
    ensures RoundsAway(m) <==> 0 - RoundMagnitude(m) < 0 - m
    ensures RoundsAway(m) ==> (0 - RoundMagnitude(m)) % PROVIDER_OSD_SIZE_IN_TIB == 0
  {
    MagnitudeMovesIff(m);
    if RoundsAway(m) {
      NegatedWholeSets(RoundMagnitude(m));
    }
  }

  /** What the conversion does to a size, on both sides of zero. */
  lemma RoundedDownIff(size: int)
    ensures RoundsDown(size) <==> ToFloat64(size) < size
    ensures RoundsDown(size) ==> ToFloat64(size) % PROVIDER_OSD_SIZE_IN_TIB == 0
  {
    var m: nat := if size < 0 then -size else size;
    UlpBounds(m);
    if size < 0 {
      assert ToFloat64(size) == 0 - RoundMagnitude(m);
      NegatedMovesIff(m);
    } else {
      assert ToFloat64(size) == RoundMagnitude(m);
      MagnitudeMovesIff(m);
    }
  }

  /** Over all 64-bit sizes, and in fact all integers: the provisioned capacity covers the request
      exactly when the conversion to float64 does not round it down. */
  lemma CapacityIsEnoughIff(size: int)
    ensures size <= PROVIDER_OSD_SIZE_IN_TIB * ProviderDeviceSetCount(size) <==> !RoundsDown(size)
  {
    RoundedDownIff(size);
    CeilOfWholeSets(ToFloat64(size));
  }

  /** The bound 2^53 is tight. */
  lemma UnderProvisionedAbove53()
    ensures PROVIDER_OSD_SIZE_IN_TIB * ProviderDeviceSetCount(TWO53 + 1) == TWO53
  {
    assert Ulp((TWO53 + 1) / 2) == 1 && Ulp(TWO53 + 1) == 2;
  }

  /** The final conversion back to a 64-bit integer cannot overflow. */
  lemma CountFitsInt64(size: int)
    requires IsInt64(size)
    ensures IsInt64(ProviderDeviceSetCount(size))
  {
    var m: nat := if size < 0 then -size else size;
    UlpBounds(m);
    RoundingError(m);
    assert Ulp(m) <= 2 * TWO63;
  }
}
