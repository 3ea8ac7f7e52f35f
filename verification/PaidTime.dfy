/**
 Paid time survives an ad's lifecycle: a service frozen while its ad is expired comes
 back with exactly the time it had left, and never becomes worth more of a refund
 (services/payments/internal/repo/ad_promotion.go:100-140,
 services/payments/internal/app/lifecycle.go:71-104).
 */
module PaidTime {
  import opened Clock
  import opened Collections
  import opened RefundArithmetic
  import opened PaymentsDb
  import opened PaymentsRuns

  /** One lifecycle transaction on the ad of a service. */
  datatype Freeze = Freeze(at: Time) | Thaw(at: Time)

  function Step(p: AdPromotion, e: Freeze): AdPromotion {
    match e
    case Freeze(at) => SuspendRow(p, p.adId, at)
    case Thaw(at) => ResumeRow(p, p.adId, at)
  }

  function After(p: AdPromotion, run: seq<Freeze>): AdPromotion {
    if run == [] then p else Step(After(p, run[..|run| - 1]), run[|run| - 1])
  }

  function LastTime(start: Time, run: seq<Freeze>): Time {
    if run == [] then start else run[|run| - 1].at
  }

  ghost predicate ClockForward(start: Time, run: seq<Freeze>) {
    run == [] || (ClockForward(start, run[..|run| - 1]) && LastTime(start, run[..|run| - 1]) <= run[|run| - 1].at)
  }

  /** Time the service spent active between `start` and the last event. */
  function ActiveTime(p: AdPromotion, start: Time, run: seq<Freeze>): int {
    if run == [] then 0 else
    var before := run[..|run| - 1];
    ActiveTime(p, start, before)
      + if After(p, before).status.Active? then run[|run| - 1].at - LastTime(start, before) else 0
  }

  /** Time it spent frozen. */
  function FrozenTime(p: AdPromotion, start: Time, run: seq<Freeze>): int {
    if run == [] then 0 else
    var before := run[..|run| - 1];
    FrozenTime(p, start, before)
      + if After(p, before).status.Suspended? then run[|run| - 1].at - LastTime(start, before) else 0
  }

  function ActiveUntil(p: AdPromotion, start: Time, run: seq<Freeze>, t: Time): int {
    ActiveTime(p, start, run) + if After(p, run).status.Active? then t - LastTime(start, run) else 0
  }

  function FrozenUntil(p: AdPromotion, start: Time, run: seq<Freeze>, t: Time): int {
    FrozenTime(p, start, run) + if After(p, run).status.Suspended? then t - LastTime(start, run) else 0
  }

  /** A service with an end date, running from `start`. */
  ghost predicate Running(p: AdPromotion, start: Time) {
    p.status == Active && p.suspendedAt == None && p.endsAt.Some? && p.startsAt <= start
  }

  /** Frozen exactly when it knows since when, and never since before it started. */
  ghost predicate Consistent(q: AdPromotion, p: AdPromotion, latest: Time) {
    && q.endsAt.Some? && q.startsAt == p.startsAt && q.amount == p.amount
    && (q.status == Active || q.status == Suspended)
    && (q.status == Active ==> q.suspendedAt == None)
    && (q.status == Suspended ==> q.suspendedAt.Some? && p.startsAt <= q.suspendedAt.value <= latest)
  }

  lemma {:induction false} StaysConsistent(p: AdPromotion, start: Time, run: seq<Freeze>)
    requires Running(p, start) && ClockForward(start, run)
    ensures start <= LastTime(start, run)
    ensures Consistent(After(p, run), p, LastTime(start, run))
  {
    if run != [] {
      StaysConsistent(p, start, run[..|run| - 1]);
    }
  }

  /** The time left shrinks only by time spent active, and the end date moves on exactly by
      the time spent frozen, over any sequence of suspensions and resumptions. */
  lemma {:induction false} PaidTimeConserved(p: AdPromotion, start: Time, run: seq<Freeze>, t: Time)
    requires Running(p, start) && ClockForward(start, run) && LastTime(start, run) <= t
    ensures var q := After(p, run);
            && q.endsAt.Some?
            && q.endsAt.value - AsOf(q, t) == p.endsAt.value - start - ActiveUntil(p, start, run, t)
            && (q.status == Active ==> q.endsAt.value == p.endsAt.value + FrozenUntil(p, start, run, t))
            && ActiveUntil(p, start, run, t) + FrozenUntil(p, start, run, t) == t - start
  {
    StaysConsistent(p, start, run);
    if run != [] {
      var before, e := run[..|run| - 1], run[|run| - 1];
      StaysConsistent(p, start, before);
      PaidTimeConserved(p, start, before, e.at);
    }
  }

  /* Refunds along the way */

  lemma WaitingRefundsNoMore(q: AdPromotion, now: Time, later: Time)
    requires q.amount <= MAX_INT64 && ProductFits(q, now) && now <= later
    ensures ProductFits(q, later)
    ensures RefundAmount(q, later) <= RefundAmount(q, now)
    ensures q.status == Suspended && q.suspendedAt.Some? ==> RefundAmount(q, later) == RefundAmount(q, now)
  {
    RefundShrinksWithUse(q, now, q, later);
  }

  /** Freezing keeps the refund due at that moment, for as long as the freeze lasts. */
  lemma SuspensionKeepsRefund(q: AdPromotion, now: Time, later: Time)
    requires q.status == Active
    ensures RefundAmount(Step(q, Freeze(now)), later) == RefundAmount(q, now)
    ensures ProductFits(Step(q, Freeze(now)), later) <==> ProductFits(q, now)
  {
  }

  /** Resuming moves the end date but not the start, so the same time left is a smaller share
      of a longer term: the refund can drop, never rise. */
  lemma ResumptionRefundsNoMore(q: AdPromotion, now: Time)
    requires q.amount <= MAX_INT64 && ProductFits(q, now)
    requires q.status == Suspended && q.suspendedAt.Some? && q.endsAt.Some?
    requires q.startsAt <= q.suspendedAt.value <= now
    ensures ProductFits(Step(q, Thaw(now)), now)
    ensures RefundAmount(Step(q, Thaw(now)), now) <= RefundAmount(q, now)
  {
    RefundShrinksWithUse(q, now, Step(q, Thaw(now)), now);
  }

  /** The refundable amount never grows from one moment of a run to a later one. */
  lemma {:induction false} RefundNeverGrows(p: AdPromotion, start: Time, run: seq<Freeze>, t: Time)
    requires Running(p, start) && p.amount <= MAX_INT64 && ProductFits(p, start)
    requires ClockForward(start, run) && LastTime(start, run) <= t
    ensures ProductFits(After(p, run), t)
    ensures RefundAmount(After(p, run), t) <= RefundAmount(p, start)
    ensures run != [] ==> RefundAmount(After(p, run), t) <= RefundAmount(After(p, run[..|run| - 1]), run[|run| - 1].at)
  {
    if run == [] {
      WaitingRefundsNoMore(p, start, t);
    } else {
      var before, e := run[..|run| - 1], run[|run| - 1];
      var q := After(p, before);
      RefundNeverGrows(p, start, before, e.at);
      StaysConsistent(p, start, before);
      if e.Freeze? && q.status == Active {
        SuspensionKeepsRefund(q, e.at, e.at);
      } else if e.Thaw? && q.status == Suspended {
        ResumptionRefundsNoMore(q, e.at);
      }
      WaitingRefundsNoMore(Step(q, e), e.at, t);
    }
  }

  /** What a frozen service is worth once thawed: the same seconds left, prorated over a term
      longer by the seconds frozen. */
  lemma ThawedRefundIs(q: AdPromotion, now: Time)
    requires q.amount <= MAX_INT64 && ProductFits(q, now)
    requires q.status == Suspended && q.suspendedAt.Some? && q.endsAt.Some?
    requires q.startsAt <= q.suspendedAt.value <= now
    ensures var thawed := Step(q, Thaw(now));
            && UnusedSeconds(thawed, now) == UnusedSeconds(q, now)
            && thawed.endsAt == Some(q.endsAt.value + (now - q.suspendedAt.value)) && thawed.startsAt == q.startsAt
            && TotalSeconds(q) <= TotalSeconds(thawed)
            && IsProratedFloor(RefundAmount(thawed, now), q.amount, UnusedSeconds(q, now), TotalSeconds(thawed))
  {
    RefundIsExactIff(Step(q, Thaw(now)), now);
    hide RefundAmount;
  }

  /** So thawing leaves the refund as it was exactly when the old sum still fits the longer term. */
  lemma ResumptionRefundsTheSameIff(q: AdPromotion, now: Time)
    requires 0 < q.amount <= MAX_INT64 && ProductFits(q, now)
    requires q.status == Suspended && q.suspendedAt.Some? && q.endsAt.Some?
    requires q.startsAt <= q.suspendedAt.value <= now
    ensures RefundAmount(Step(q, Thaw(now)), now) == RefundAmount(q, now)
       <==> RefundAmount(q, now) * TotalSeconds(Step(q, Thaw(now))) <= q.amount * UnusedSeconds(q, now)
  {
    ThawedRefundIs(q, now);
    ResumptionRefundsNoMore(q, now);
    RefundIsExactIff(q, now);
    FloorReached(RefundAmount(q, now), RefundAmount(Step(q, Thaw(now)), now), q.amount, UnusedSeconds(q, now),
                 TotalSeconds(q), TotalSeconds(Step(q, Thaw(now))));
  }

  lemma FloorReached(r: int, s: int, amount: int, unused: nat, total: nat, longer: nat)
    requires amount > 0 && unused <= total <= longer && s <= r
    ensures IsProratedFloor(r, amount, unused, total) && IsProratedFloor(s, amount, unused, longer) ==>
              (s == r <==> r * longer <= amount * unused)
  {
    if longer > 0 && s < r {
      MulLe(s + 1, r, longer);
    }
  }

  const WEEK_OF_TOP: AdPromotion := AdPromotion(0, 0, 0, "TOP", None, Active, 70_000, 0, Some(7 * DAY), [], None)

  /** A week bought and frozen for a week when one day was used: six days are still left, but
      once thawed a refund counts them against a fortnight. */
  lemma ResumptionCanRefundLess()
    ensures var frozen := Step(WEEK_OF_TOP, Freeze(DAY));
            && RefundAmount(frozen, 8 * DAY) == 60_000
            && RefundAmount(Step(frozen, Thaw(8 * DAY)), 8 * DAY) == 30_000
  {
    var frozen := Step(WEEK_OF_TOP, Freeze(DAY));
    SixDaysDue(frozen, 7, 60_000);
    SixDaysDue(Step(frozen, Thaw(8 * DAY)), 14, 30_000);
  }

  lemma SixDaysDue(p: AdPromotion, days: nat, due: int)
    requires p.amount == 70_000
    requires UnusedSeconds(p, 8 * DAY) == 6 * 86_400 && TotalSeconds(p) == days * 86_400
    requires (days == 7 && due == 60_000) || (days == 14 && due == 30_000)
    ensures RefundAmount(p, 8 * DAY) == due
  {
  }

  /* The event that brings a TOP service back */

  /** A suspended TOP service of the ad that has an end date. */
  predicate FrozenTop(p: AdPromotion, ad: AdId) {
    p.adId == ad && p.status == Suspended && IsTopService(p.serviceCode)
      && p.endsAt.Some? && p.suspendedAt.Some?
  }

  /** Where the newest frozen TOP service of an ad is. */
  function NewestFrozenTop(promotions: seq<AdPromotion>, ad: AdId): (r: Option<nat>)
    ensures r.None? ==> forall k :: 0 <= k < |promotions| ==> !FrozenTop(promotions[k], ad)
    ensures r.Some? ==> r.value < |promotions| && FrozenTop(promotions[r.value], ad)
    ensures r.Some? ==> forall j :: r.value < j < |promotions| ==> !FrozenTop(promotions[j], ad)
  {
    if promotions == [] then None
    else if FrozenTop(promotions[|promotions| - 1], ad) then Some(|promotions| - 1)
    else NewestFrozenTop(promotions[..|promotions| - 1], ad)
  }

  function TopEvent(p: AdPromotion, ad: AdId, title: string, newEnds: Time): Event {
    PromotionActivated(ad, p.userId, title, p.serviceCode, true, Unix(newEnds), Some(newEnds))
  }

  lemma ResumePeel(p: AdPromotion, rest: seq<AdPromotion>, ad: AdId, title: string, now: Time)
    ensures ResumeTopEvent([p] + rest, ad, title, now)
         == if IsTopService(p.serviceCode) && p.endsAt.Some? && p.suspendedAt.Some?
            then Some(TopEvent(p, ad, title, p.endsAt.value + Sub(now, p.suspendedAt.value)))
            else ResumeTopEvent(rest, ad, title, now)
  {
  }

  lemma NothingToResume(ad: AdId, title: string, now: Time)
    ensures ResumeTopEvent([], ad, title, now).None?
  {
  }

  /** An event is built exactly when some TOP service is frozen; it is the newest one's, and
      carries its end date moved on by the length of the freeze as Go measures it. */
  lemma {:induction false} ResumeEventIsNewestTop(promotions: seq<AdPromotion>, ad: AdId, title: string, now: Time)
    ensures ResumeTopEvent(ListRows(promotions, ad, Some(Suspended)), ad, title, now)
         == match NewestFrozenTop(promotions, ad)
            case None => None
            case Some(k) => Some(TopEvent(promotions[k], ad, title,
                                          promotions[k].endsAt.value + Sub(now, promotions[k].suspendedAt.value)))
  {
    hide ResumeTopEvent;
    hide TopEvent;
    hide Sub;
    if promotions == [] {
      NothingToResume(ad, title, now);
    } else {
      var init, p := promotions[..|promotions| - 1], promotions[|promotions| - 1];
      ResumeEventIsNewestTop(init, ad, title, now);
      var rest := ListRows(init, ad, Some(Suspended));
      if Matches(p, ad, Some(Suspended)) {
        ResumePeel(p, rest, ad, title, now);
      } else {
        assert [] + rest == rest;
      }
    }
  }

  /** Any frozen stretch Go can express: the row and the event agree on the new end date, and
      no longer one does. */
  lemma RowAndEventAgreeIff(p: AdPromotion, ad: AdId, now: Time)
    requires FrozenTop(p, ad)
    ensures ResumeRow(p, ad, now).endsAt == Some(p.endsAt.value + Sub(now, p.suspendedAt.value))
       <==> MIN_INT64 <= now - p.suspendedAt.value <= MAX_INT64
  {
  }

  ghost predicate IsNewestFrozenTop(promotions: seq<AdPromotion>, ad: AdId, k: nat) {
    k < |promotions| && FrozenTop(promotions[k], ad) && forall j :: k < j < |promotions| ==> !FrozenTop(promotions[j], ad)
  }

  /** The event puts the resumed service back at the top until it ends. */
  ghost predicate Restores(e: Event, p: AdPromotion, ad: AdId, title: string) {
    && p.status == Active && p.endsAt.Some?
    && e.PromotionActivated? && e.adId == ad && e.userId == p.userId && e.title == title
    && e.serviceCode == "TOP" && e.isTop && e.endsAt == p.endsAt
    && e.rank * SECOND <= p.endsAt.value < (e.rank + 1) * SECOND
  }

  lemma ResumedRowMatches(db: Db, ad: AdId, title: string, now: Time, event: Event)
    requires Some(event) == ResumeTopEvent(ListRows(db.promotions, ad, Some(Suspended)), ad, title, now)
    requires forall k :: 0 <= k < |db.promotions| && FrozenTop(db.promotions[k], ad) ==>
               MIN_INT64 <= now - db.promotions[k].suspendedAt.value <= MAX_INT64
    ensures event.PromotionActivated?
    ensures var db' := ResumeTx(db, ad, now, Some(event));
            && db'.outbox == db.outbox + [event]
            && exists k: nat :: IsNewestFrozenTop(db.promotions, ad, k) && Restores(event, db'.promotions[k], ad, title)
  {
    ResumeEventIsNewestTop(db.promotions, ad, title, now);
    var k := NewestFrozenTop(db.promotions, ad).value;
    assert HasSuspended(db.promotions, ad);
    RowAndEventAgreeIff(db.promotions[k], ad, now);
    assert ResumeTx(db, ad, now, Some(event)).promotions[k] == ResumeRow(db.promotions[k], ad, now);
  }

  /** When a handler commits a resumption in a serial run, the event it enqueues carries the
      new end date of the newest TOP row resumed by that very transaction, and its rank by it. */
  lemma CommittedEventMatchesRow(owner: AdId -> UserId, states: seq<State>, actions: seq<Action>, i: nat)
    requires SerialRun(owner, states, actions) && i < |actions| && actions[i].WriteResume?
    requires var w := states[i].handlers[actions[i].handler];
             && w.event.Some? && w.event.value.PromotionActivated?
             && forall k :: 0 <= k < |states[i].db.promotions| && FrozenTop(states[i].db.promotions[k], w.ad) ==>
                  MIN_INT64 <= w.now - states[i].db.promotions[k].suspendedAt.value <= MAX_INT64
    ensures var w, db, db' := states[i].handlers[actions[i].handler], states[i].db, states[i + 1].db;
            && db'.outbox == db.outbox + [w.event.value]
            && exists k: nat :: IsNewestFrozenTop(db.promotions, w.ad, k) && Restores(w.event.value, db'.promotions[k], w.ad, w.title)
  {
    RunKeepsInv(owner, states, actions, i);
    var w := states[i].handlers[actions[i].handler];
    assert HandlerInv(owner, states[i].db, w);
    ResumedRowMatches(states[i].db, w.ad, w.title, w.now, w.event.value);
    hide ResumeTx;
    hide ResumeTopEvent;
    hide ListRows;
  }
}
