/**
 Money owed for the unused part of a paid service
 (services/payments/internal/domain/ad_promotion.go).

 Instants and durations are whole nanoseconds. Durations and amounts are the
 source's 64-bit integers: subtracting instants saturates, multiplying wraps
 around and dividing truncates toward zero.
 */
module RefundArithmetic {
  import opened Clock
  import opened Collections

  type UserId = nat
  type AdId = nat
  type PromotionId = nat

  const MAX_INT64: int := 0x7fff_ffff_ffff_ffff
  const MIN_INT64: int := -0x8000_0000_0000_0000
  const TWO_64: int := 0x1_0000_0000_0000_0000

  datatype PromotionStatus = Active | Expired | Refunded | Suspended

  datatype AdPromotion = AdPromotion(
    id: PromotionId,
    adId: AdId,
    userId: UserId,
    serviceCode: string,
    bundleCode: Option<string>,
    status: PromotionStatus,
    amount: int,
    startsAt: Time,
    endsAt: Option<Time>,
    schedule: seq<int>,
    suspendedAt: Option<Time>)

  function Wrap64(x: int): int {
    (x - MIN_INT64) % TWO_64 + MIN_INT64
  }

  function TruncDiv(x: int, d: int): int
    requires d > 0
  {
    if x >= 0 then x / d else -((-x) / d)
  }

  /** Difference of two instants as a saturating 64-bit duration. */
  function Sub(t: Time, u: Time): int {
    if t - u > MAX_INT64 then MAX_INT64 else if t - u < MIN_INT64 then MIN_INT64 else t - u
  }

  /** The instant a promotion's remaining time is counted from: the freeze, while frozen. */
  function AsOf(p: AdPromotion, now: Time): Time {
    if p.status.Suspended? && p.suspendedAt.Some? then p.suspendedAt.value else now
  }

  function RefundAmount(p: AdPromotion, now: Time): int {
    if p.endsAt.None? || p.amount <= 0 then 0 else
    var total := Sub(p.endsAt.value, p.startsAt);
    if total <= 0 then 0 else
    var remaining := Sub(p.endsAt.value, AsOf(p, now));
    if remaining <= 0 then 0 else
    var capped := if remaining > total then total else remaining;
    var totalSec := total / SECOND;
    if totalSec <= 0 then 0 else
    TruncDiv(Wrap64(p.amount * (capped / SECOND)), totalSec)
  }

  /* The meaning of a refund: whole seconds paid for and whole seconds left. */

  function TotalSeconds(p: AdPromotion): nat {
    if p.endsAt.None? || Sub(p.endsAt.value, p.startsAt) <= 0 then 0
    else Sub(p.endsAt.value, p.startsAt) / SECOND
  }

  function UnusedSeconds(p: AdPromotion, now: Time): nat {
    if p.endsAt.None? || Sub(p.endsAt.value, AsOf(p, now)) <= 0 then 0 else
    var left := Sub(p.endsAt.value, AsOf(p, now)) / SECOND;
    if left > TotalSeconds(p) then TotalSeconds(p) else left
  }

  /** `r` is the largest whole sum not above amount * unused / total. */
  ghost predicate IsProratedFloor(r: int, amount: int, unused: nat, total: nat) {
    if amount <= 0 || total == 0 then r == 0
    else r * total <= amount * unused < (r + 1) * total
  }

  /** The product the source computes fits its integer type. */
  predicate ProductFits(p: AdPromotion, now: Time) {
    p.amount * UnusedSeconds(p, now) <= MAX_INT64
  }

  lemma FloorIsDivision(x: int, d: int)
    requires d > 0
    ensures (x / d) * d <= x < (x / d + 1) * d
  {
  }

  lemma {:induction false} FloorIsUnique(q: int, r: int, x: int, d: int)
    requires d > 0
    requires q * d <= x < (q + 1) * d
    requires r * d <= x < (r + 1) * d
    ensures q == r
  {
  }

  lemma MulLe(a: int, b: int, c: int)
    requires a <= b && 0 <= c
    ensures a * c <= b * c
  {
  }

  lemma MulNonNegative(a: int, b: int)
    requires 0 <= a && 0 <= b
    ensures 0 <= a * b
  {}

  /** Cutting to seconds before capping is the same as capping before cutting. */
  lemma CapThenCut(remaining: int, total: int)
    requires remaining > 0 && total > 0
    ensures (if remaining > total then total else remaining) / SECOND
         == if remaining / SECOND > total / SECOND then total / SECOND else remaining / SECOND
  {
  }

  lemma NothingLeft(amount: int, d: int)
    requires d > 0
    ensures TruncDiv(Wrap64(amount * 0), d) == 0
  {
    assert amount * 0 == 0;
  }

  lemma RefundAmountUnfolds(p: AdPromotion, now: Time)
    ensures RefundAmount(p, now) ==
            if p.amount <= 0 || TotalSeconds(p) == 0 then 0
            else TruncDiv(Wrap64(p.amount * UnusedSeconds(p, now)), TotalSeconds(p))
  {
    hide Wrap64;
    hide TruncDiv;
    hide Sub;
    hide AsOf;
    if p.endsAt.Some? && p.amount > 0 && Sub(p.endsAt.value, p.startsAt) > 0 {
      var remaining := Sub(p.endsAt.value, AsOf(p, now));
      if remaining > 0 {
        CapThenCut(remaining, Sub(p.endsAt.value, p.startsAt));
      } else if TotalSeconds(p) > 0 {
        NothingLeft(p.amount, TotalSeconds(p));
      }
    }
  }

  /** A product that does not fit comes out smaller by 2^64 at least. */
  lemma WrappingLoses(x: int)
    requires x > MAX_INT64
    ensures Wrap64(x) <= x - TWO_64
  {
    var y := x - MIN_INT64;
    assert y % TWO_64 == y - TWO_64 * (y / TWO_64) && y / TWO_64 >= 1;
  }

  /** Numbers more than a divisor apart have different quotients. */
  lemma QuotientsApart(w: int, x: int, d: int)
    requires d > 0 && w + d <= x
    ensures w / d < x / d
  {
    FloorIsDivision(w, d);
    FloorIsDivision(x, d);
    if x / d <= w / d {
      MulLe(x / d + 1, w / d + 1, d);
      MulLe(x / d, w / d, d);
    }
  }

  lemma QuotientPositive(x: int, d: int)
    requires 0 < d <= x
    ensures x / d > 0
  {
    QuotientsApart(0, x, d);
  }

  lemma TruncNegative(w: int, d: int)
    requires w < 0 < d
    ensures TruncDiv(w, d) <= 0
  {
    FloorIsDivision(-w, d);
    if -w / d < 0 {
      MulLe(-w / d + 1, 0, d);
    }
  }

  /** A wrapped product misses the true one by a multiple of 2^64, which no division by a
      duration in seconds can hide. */
  lemma WrappedDivisionIsWrong(x: int, d: int)
    requires 0 < d <= MAX_INT64 / SECOND
    requires x > MAX_INT64
    ensures TruncDiv(Wrap64(x), d) < x / d
  {
    WrappingLoses(x);
    hide Wrap64;
    if Wrap64(x) >= 0 {
      QuotientsApart(Wrap64(x), x, d);
    } else {
      TruncNegative(Wrap64(x), d);
      QuotientPositive(x, d);
    }
  }

  /** The refund is the exact whole-second floor precisely when the product fits 64 bits. */
  lemma RefundIsExactIff(p: AdPromotion, now: Time)
    requires p.amount <= MAX_INT64
    ensures IsProratedFloor(RefundAmount(p, now), p.amount, UnusedSeconds(p, now), TotalSeconds(p))
       <==> ProductFits(p, now)
  {
    RefundAmountUnfolds(p, now);
    var unused, total := UnusedSeconds(p, now), TotalSeconds(p);
    assert unused <= total <= MAX_INT64 / SECOND;
    hide RefundAmount;
    hide UnusedSeconds;
    hide TotalSeconds;
    if p.amount <= 0 || total == 0 {
      assert unused == 0 || p.amount <= 0;
      if unused == 0 {
        assert p.amount * unused == 0;
      } else {
        MulLe(p.amount, 0, unused);
      }
    } else {
      var x := p.amount * unused;
      MulNonNegative(p.amount, unused);
      FloorIsDivision(x, total);
      if x <= MAX_INT64 {
        assert Wrap64(x) == x;
      } else {
        WrappedDivisionIsWrong(x, total);
        var r := RefundAmount(p, now);
        if r * total <= x < (r + 1) * total {
          FloorIsUnique(r, x / total, x, total);
        }
      }
    }
  }

  lemma FloorWithin(r: int, amount: int, unused: nat, total: nat)
    requires amount > 0 && total > 0 && unused <= total
    requires IsProratedFloor(r, amount, unused, total)
    ensures 0 <= r <= amount
  {
    MulNonNegative(amount, unused);
    MulLe(unused, total, amount);
    if r < 0 {
      MulLe(r + 1, 0, total);
    } else if r > amount {
      MulLe(amount + 1, r, total);
    }
  }

  /** The floor of everything is the whole, and of nothing it is nothing. */
  lemma FloorAtTheEnds(r: int, amount: int, unused: nat, total: nat)
    requires amount > 0 && total > 0
    requires IsProratedFloor(r, amount, unused, total)
    ensures unused == total ==> r == amount
    ensures unused == 0 ==> r == 0
  {
    if unused == total {
      MulLe(amount, amount + 1, total);
      FloorIsUnique(r, amount, amount * total, total);
    } else if unused == 0 {
      assert amount * unused == 0;
      FloorIsUnique(r, 0, 0, total);
    }
  }

  /** A refund never exceeds what was paid, is the whole price when nothing was used and
      nothing when everything was. */
  lemma RefundWithinPrice(p: AdPromotion, now: Time)
    requires p.amount <= MAX_INT64
    requires ProductFits(p, now)
    ensures 0 <= RefundAmount(p, now)
    ensures p.amount >= 0 ==> RefundAmount(p, now) <= p.amount
    ensures p.amount >= 0 && TotalSeconds(p) > 0 && UnusedSeconds(p, now) == TotalSeconds(p)
        ==> RefundAmount(p, now) == p.amount
    ensures UnusedSeconds(p, now) == 0 ==> RefundAmount(p, now) == 0
  {
    RefundIsExactIff(p, now);
    var r, unused, total := RefundAmount(p, now), UnusedSeconds(p, now), TotalSeconds(p);
    assert unused <= total;
    hide RefundAmount;
    hide UnusedSeconds;
    hide TotalSeconds;
    if p.amount > 0 && total > 0 {
      FloorWithin(r, p.amount, unused, total);
      FloorAtTheEnds(r, p.amount, unused, total);
    }
  }

  lemma ProductShrinks(amount: int, unused: nat, left: nat)
    requires left <= unused
    requires amount * unused <= MAX_INT64
    ensures amount * left <= MAX_INT64
  {
    if amount > 0 {
      MulLe(left, unused, amount);
    } else {
      MulLe(amount, 0, left);
    }
  }

  /** A floor of no more over no less is no greater. */
  lemma FloorShrinks(r: int, s: int, amount: int, unused: nat, left: nat, total: nat, longer: nat)
    requires amount > 0 && 0 < total <= longer && left <= unused && 0 <= s
    requires IsProratedFloor(r, amount, unused, total) && IsProratedFloor(s, amount, left, longer)
    ensures s <= r
  {
    if r < s {
      // s * longer <= amount * left <= amount * unused < (r + 1) * total <= s * total <= s * longer
      MulLe(left, unused, amount);
      MulLe(r + 1, s, total);
      MulLe(total, longer, s);
    }
  }

  /** Fewer seconds left of at least as many paid for never refunds more. */
  lemma RefundShrinksWithUse(p: AdPromotion, now: Time, q: AdPromotion, later: Time)
    requires p.amount == q.amount <= MAX_INT64
    requires ProductFits(p, now)
    requires UnusedSeconds(q, later) <= UnusedSeconds(p, now)
    requires TotalSeconds(p) <= TotalSeconds(q)
    requires TotalSeconds(p) == 0 ==> UnusedSeconds(q, later) == 0
    ensures ProductFits(q, later)
    ensures RefundAmount(q, later) <= RefundAmount(p, now)
  {
    hide RefundAmount;
    hide UnusedSeconds;
    hide TotalSeconds;
    ProductShrinks(p.amount, UnusedSeconds(p, now), UnusedSeconds(q, later));
    RefundIsExactIff(p, now);
    RefundIsExactIff(q, later);
    RefundWithinPrice(p, now);
    RefundWithinPrice(q, later);
    if p.amount > 0 && TotalSeconds(p) > 0 {
      FloorShrinks(RefundAmount(p, now), RefundAmount(q, later), p.amount, UnusedSeconds(p, now), UnusedSeconds(q, later),
                   TotalSeconds(p), TotalSeconds(q));
    }
  }

  /** A week bought for 2^44: nothing used, and the product already wraps to a negative refund. */
  lemma OverflowIsReachable()
    ensures var p := AdPromotion(0, 0, 0, "TOP", None, Active, 0x1000_0000_0000, 0, Some(7 * DAY), [], None);
            && UnusedSeconds(p, 0) == TotalSeconds(p) == 7 * 86_400
            && !ProductFits(p, 0) && RefundAmount(p, 0) < 0
  {
    var p := AdPromotion(0, 0, 0, "TOP", None, Active, 0x1000_0000_0000, 0, Some(7 * DAY), [], None);
    RefundAmountUnfolds(p, 0);
    var product := 0x1000_0000_0000 * (7 * 86_400);
    assert MAX_INT64 < product < TWO_64;
    assert Wrap64(product) == product - TWO_64;
  }
}
