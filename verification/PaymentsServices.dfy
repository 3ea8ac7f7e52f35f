/**
 The two services that work on the tables in several transactions: the purchase saga
 (services/payments/internal/app/promotion_ad.go) and the reaction to an ad's lifecycle
 (services/payments/internal/app/lifecycle.go).
 */
module PaymentsServices {
  import opened Clock
  import opened Collections
  import opened RefundArithmetic
  import opened PaymentsDb
  import opened PaymentsRepo
  import opened Pricing
  import PaymentsRuns

  datatype AdView = AdView(id: AdId, userId: UserId, categoryId: string, regionId: int, title: string, active: bool)

  /** Which of the fallible steps fail: the reads of the ad, of the price rules and of the services
      or bundles, the building of the event; and how the saga's writes end. */
  datatype Faults = Faults(ad: bool, rules: bool, products: bool, event: bool,
                           debit: Ending, activation: Ending, compensation: Ending)

  datatype Outcome =
    | Promoted(rows: seq<AdPromotion>)
    | Rejected(error: Error)
    | EventFailed
    | Compensated
    | CompensationFailed

  function TopEndsAt(items: seq<PromotionItem>): Option<Time> {
    if items == [] then None
    else if IsTopService(items[|items| - 1].serviceCode) then items[|items| - 1].endsAt
    else TopEndsAt(items[..|items| - 1])
  }

  function ActivatedEvent(ad: AdView, plan: Plan): Event {
    var ends := TopEndsAt(plan.items);
    PromotionActivated(ad.id, ad.userId, ad.title, plan.primary, plan.isTop,
                       if plan.isTop && ends.Some? then Unix(ends.value) else 0, ends)
  }

  function Amount(): AdPromotion -> int { (p: AdPromotion) => p.amount }

  /** The rows deliver the plan: one service per item, in order, sold to this user for this ad. */
  ghost predicate Delivers(rows: seq<AdPromotion>, plan: Plan, ad: AdId, user: UserId, now: Time) {
    && |rows| == |plan.items|
    && forall i :: 0 <= i < |rows| ==>
         && rows[i].adId == ad && rows[i].userId == user && rows[i].status == Active && rows[i].suspendedAt == None
         && rows[i].bundleCode == plan.bundleCode && rows[i].startsAt == now
         && rows[i].serviceCode == plan.items[i].serviceCode
         && rows[i].endsAt == plan.items[i].endsAt && rows[i].schedule == plan.items[i].schedule
  }

  /** Who may not buy what, in the order the checks are made. */
  function Refusal(user: UserId, ad: Option<AdView>, plan: Result<Plan, Error>, faults: Faults): Option<Error> {
    if faults.ad then Some(Infrastructure)
    else if ad.None? then Some(AdNotFound)
    else if ad.value.userId != user then Some(NotAdOwner)
    else if !ad.value.active then Some(AdNotPromotable)
    else if plan.Err? then Some(plan.error)
    else if plan.value.amount <= 0 then Some(InvalidAmount)
    else None
  }

  /** A purchase goes ahead exactly for the ad's owner, an active ad and a plan at a positive price;
      what is wrong with the ad is told before anything about the plan. */
  lemma WhoMayBuy(user: UserId, ad: Option<AdView>, plan: Result<Plan, Error>, faults: Faults)
    requires !faults.ad
    ensures Refusal(user, ad, plan, faults).None? <==>
              ad.Some? && ad.value.userId == user && ad.value.active && plan.Ok? && plan.value.amount > 0
    ensures Refusal(user, ad, plan, faults) ==
              match ad
              case None => Some(AdNotFound)
              case Some(a) =>
                if a.userId == user && a.active then
                  (match plan
                   case Err(e) => Some(e)
                   case Ok(p) => if p.amount > 0 then None else Some(InvalidAmount))
                else Some(if a.userId == user then AdNotPromotable else NotAdOwner)
  {
  }

  predicate Delivered(faults: Faults) { !faults.event && !faults.activation.RolledBack? }

  predicate PaidBack(faults: Faults) { !faults.event && !faults.activation.Confirmed? && !faults.compensation.RolledBack? }

  /** What an admitted purchase leaves: nothing where the debit was refused or rolled back; the debit
      where its answer was lost; else the whole saga, and the price is gone unless it was paid back. */
  ghost predicate Bought(before: Db, after: Db, user: UserId, ad: AdView, plan: Plan, rows: seq<AdPromotion>,
                         faults: Faults, outcome: Outcome)
  {
    var debit := DebitTx(before, user, plan.amount, Purchase, Some(ForAd(ad.id)));
    if !faults.debit.Confirmed? then
      outcome == Rejected(Infrastructure) && after == if faults.debit.Unheard? && debit.Ok? then debit.value else before
    else if debit.Err? then outcome == Rejected(InsufficientFunds) && after == before
    else
      && Settled(debit.value, after, user, ad, plan, rows, faults, outcome)
      && Told(before, after, user, ad, plan.amount, rows, faults)
      && BalanceOf(after, user) == BalanceOf(before, user) - (if PaidBack(faults) then 0 else plan.amount)
      && forall other :: other != user ==> BalanceOf(after, other) == BalanceOf(before, other)
  }

  /** The service is delivered where the activation was committed, heard of or not; the price goes
      back where the activation was taken for failed and the compensation was committed. */
  ghost predicate Settled(charged: Db, after: Db, user: UserId, ad: AdView, plan: Plan, rows: seq<AdPromotion>,
                          faults: Faults, outcome: Outcome)
  {
    var activated := if Delivered(faults) then ActivateTx(charged, rows, ActivatedEvent(ad, plan)) else charged;
    && Ok(after) == (if PaidBack(faults) then RefundTx(activated, user, plan.amount, Some(ForAd(ad.id)), "activation_failed")
                     else Ok(activated))
    && outcome == (if faults.event then EventFailed
                   else if faults.activation.Confirmed? then Promoted(rows)
                   else if faults.compensation.Confirmed? then Compensated
                   else CompensationFailed)
  }

  /** What the tables show of it: the rows, and an announcement, if they were delivered; a refund's
      announcement, last, if the price went back. */
  ghost predicate Told(before: Db, after: Db, user: UserId, ad: AdView, price: int, rows: seq<AdPromotion>, faults: Faults) {
    && after.payments == before.payments
    && after.promotions == before.promotions + (if Delivered(faults) then rows else [])
    && before.outbox <= after.outbox
    && |after.outbox| == |before.outbox| + (if Delivered(faults) then 1 else 0) + (if PaidBack(faults) then 1 else 0)
    && (Delivered(faults) ==> Announced(after.outbox[|before.outbox|], ad, rows))
    && (PaidBack(faults) ==> after.outbox[|after.outbox| - 1] == WalletRefunded(user, price, "activation_failed"))
  }

  /** What the buyers of a service are told: whose it is, what leads it, and, for a TOP service, when
      the last one delivered ends, which is also its rank in whole seconds. */
  ghost predicate Announced(e: Event, ad: AdView, rows: seq<AdPromotion>) {
    && e.PromotionActivated? && e.adId == ad.id && e.userId == ad.userId && e.title == ad.title
    && e.serviceCode == (if e.isTop then "TOP" else if rows == [] then "" else rows[0].serviceCode)
    && (e.isTop <==> exists i :: 0 <= i < |rows| && rows[i].serviceCode == "TOP")
    && (!e.isTop ==> e.rank == 0 && e.endsAt == None)
    && forall i: nat :: LastTop(rows, i) ==>
         e.endsAt.Some? && e.endsAt == rows[i].endsAt && e.rank * SECOND <= e.endsAt.value < (e.rank + 1) * SECOND
  }

  ghost predicate LastTop(rows: seq<AdPromotion>, i: nat) {
    i < |rows| && rows[i].serviceCode == "TOP" && forall j :: i < j < |rows| ==> rows[j].serviceCode != "TOP"
  }

  lemma {:induction false} NoTopNoEnd(items: seq<PromotionItem>)
    requires forall i :: 0 <= i < |items| ==> items[i].serviceCode != "TOP"
    ensures TopEndsAt(items) == None
  {
    if items != [] {
      NoTopNoEnd(items[..|items| - 1]);
    }
  }

  lemma {:induction false} TopEndsAtLast(items: seq<PromotionItem>, i: nat)
    requires i < |items| && items[i].serviceCode == "TOP"
    requires forall j :: i < j < |items| ==> items[j].serviceCode != "TOP"
    ensures TopEndsAt(items) == items[i].endsAt
  {
    var n := |items| - 1;
    if i < n {
      assert items[..n][i] == items[i];
      TopEndsAtLast(items[..n], i);
    }
  }

  ghost predicate KnowsTop(plan: Plan) {
    && (plan.isTop <==> exists i :: 0 <= i < |plan.items| && plan.items[i].serviceCode == "TOP")
    && plan.primary == (if plan.isTop then "TOP" else if plan.items == [] then "" else plan.items[0].serviceCode)
    && forall i :: 0 <= i < |plan.items| && plan.items[i].serviceCode == "TOP" ==> plan.items[i].endsAt.Some?
  }

  /** A plan knows its TOP services, and they have an end. */
  lemma PlanKnowsTop(services: seq<ServiceInfo>, bundles: seq<BundleInfo>, prices: map<PriceKey, int>, req: Request, now: Time)
    requires BuildPlan(services, bundles, prices, req, now).Ok?
    ensures var plan := BuildPlan(services, bundles, prices, req, now).value;
            KnowsTop(plan)
  {
    var plan := BuildPlan(services, bundles, prices, req, now).value;
    if req.bundleCode != "" {
      var b := FindBundle(bundles, req.bundleCode).value;
      assert plan.items == Map(b.items, ItemOf(now));
      if i :| 0 <= i < |b.items| && IsTopService(b.items[i].serviceCode) {
        assert plan.items[i].serviceCode == "TOP";
      }
    } else {
      assert plan.items[0].serviceCode == req.serviceCode == plan.primary;
    }
  }

  lemma EventAnnounces(plan: Plan, ad: AdView, rows: seq<AdPromotion>, user: UserId, now: Time)
    requires Delivers(rows, plan, ad.id, user, now)
    requires KnowsTop(plan)
    ensures Announced(ActivatedEvent(ad, plan), ad, rows)
  {
    if !plan.isTop {
      NoTopNoEnd(plan.items);
    }
    forall i: nat | LastTop(rows, i)
      ensures var e := ActivatedEvent(ad, plan);
              e.endsAt.Some? && e.endsAt == rows[i].endsAt && e.rank * SECOND <= e.endsAt.value < (e.rank + 1) * SECOND
    {
      assert plan.items[i].serviceCode == "TOP";
      forall j | i < j < |plan.items| ensures plan.items[j].serviceCode != "TOP" {
        assert rows[j].serviceCode == plan.items[j].serviceCode;
      }
      TopEndsAtLast(plan.items, i);
    }
    hide TopEndsAt;
  }

  lemma DeliverOutcome(before: Db, after: Db, user: UserId, ad: AdView, plan: Plan, rows: seq<AdPromotion>, faults: Faults, outcome: Outcome)
    requires DebitTx(before, user, plan.amount, Purchase, Some(ForAd(ad.id))).Ok?
    requires Settled(DebitTx(before, user, plan.amount, Purchase, Some(ForAd(ad.id))).value, after, user, ad, plan, rows, faults, outcome)
    ensures outcome.Promoted? ==> outcome.rows == rows
  {
  }

  lemma SagaTells(before: Db, after: Db, user: UserId, ad: AdView, plan: Plan, rows: seq<AdPromotion>, faults: Faults, outcome: Outcome)
    requires DebitTx(before, user, plan.amount, Purchase, Some(ForAd(ad.id))).Ok?
    requires Settled(DebitTx(before, user, plan.amount, Purchase, Some(ForAd(ad.id))).value, after, user, ad, plan, rows, faults, outcome)
    requires Announced(ActivatedEvent(ad, plan), ad, rows)
    ensures Told(before, after, user, ad, plan.amount, rows, faults)
  {
    hide Announced;
    hide ActivatedEvent;
  }

  /** Nobody else's money moves, and the buyer's only if it was not paid back. */
  lemma PriceIsPaid(before: Db, after: Db, user: UserId, ad: AdView, plan: Plan, rows: seq<AdPromotion>, faults: Faults, outcome: Outcome)
    requires DebitTx(before, user, plan.amount, Purchase, Some(ForAd(ad.id))).Ok?
    requires Settled(DebitTx(before, user, plan.amount, Purchase, Some(ForAd(ad.id))).value, after, user, ad, plan, rows, faults, outcome)
    ensures BalanceOf(after, user) == BalanceOf(before, user) - (if PaidBack(faults) then 0 else plan.amount)
    ensures forall other :: other != user ==> BalanceOf(after, other) == BalanceOf(before, other)
  {
  }

  /** The row of the plan's `i`-th item; the first one carries the whole price. */
  function RowFor(user: UserId, ad: AdView, plan: Plan, now: Time, ids: nat -> PromotionId, i: nat): AdPromotion
    requires i < |plan.items|
  {
    var item := plan.items[i];
    AdPromotion(ids(i), ad.id, user, item.serviceCode, plan.bundleCode, Active,
                if i == 0 then plan.amount else 0, now, item.endsAt, item.schedule, None)
  }

  /** Its rows deliver the plan under the ids given, at the price planned. */
  ghost predicate GetsWhatWasPlanned(rows: seq<AdPromotion>, user: UserId, ad: AdView, plan: Plan, now: Time, ids: nat -> PromotionId) {
    && rows == RowsFor(user, ad, plan, now, ids)
    && (forall i :: 0 <= i < |rows| ==> rows[i].id == ids(i))
    && Delivers(rows, plan, ad.id, user, now)
    && PaymentsRuns.PlannedRows(rows, user, ad.id, plan.amount)
    && Sum(rows, Amount()) == if plan.items == [] then 0 else plan.amount
  }

  function RowsFor(user: UserId, ad: AdView, plan: Plan, now: Time, ids: nat -> PromotionId): seq<AdPromotion> {
    seq(|plan.items|, i requires 0 <= i < |plan.items| => RowFor(user, ad, plan, now, ids, i))
  }

  class PromotionService {
    const repo: Repo
    const services: seq<ServiceInfo>
    const bundles: seq<BundleInfo>
    const table: seq<PriceRule>

    constructor (repo: Repo, services: seq<ServiceInfo>, bundles: seq<BundleInfo>, table: seq<PriceRule>)
      ensures this.repo == repo && this.services == services && this.bundles == bundles && this.table == table
    {
      this.repo, this.services, this.bundles, this.table := repo, services, bundles, table;
    }

    function PlanFor(ad: AdView, req: Request, now: Time, faults: Faults): Result<Plan, Error> {
      if faults.rules || (faults.products && (req.bundleCode != "" || req.serviceCode != "")) then Err(Infrastructure)
      else BuildPlan(services, bundles, Prices(PriceRules(table, Some(ad.regionId), Some(ad.categoryId))), req, now)
    }

    /** The price of a plan is the one that the table says for the ad's own region and category. */
    lemma PricedForTheAd(ad: AdView, req: Request, now: Time, faults: Faults)
      requires UniqueRules(table) && PlanFor(ad, req, now, faults).Ok?
      ensures var key := if req.bundleCode != "" then PriceKey(Product.Bundle, req.bundleCode, 0)
                         else PriceKey(Service, req.serviceCode, req.durationDays);
              ByPrecedence(table, key, Some(ad.regionId), Some(ad.categoryId), Some(PlanFor(ad, req, now, faults).value.amount))
    {
      PricesByPrecedence(table, Some(ad.regionId), Some(ad.categoryId), req.serviceCode, req.durationDays);
      PricesByPrecedence(table, Some(ad.regionId), Some(ad.categoryId), req.bundleCode, 0);
      hide ByPrecedence;
    }

    /** A planned service runs for the days asked for, from the time of planning; the services of a
        planned bundle run for the days of the bundle. */
    lemma RunsForTheDays(ad: AdView, req: Request, now: Time, faults: Faults)
      requires UniqueServices(services) && UniqueBundles(bundles) && PlanFor(ad, req, now, faults).Ok?
      ensures var items := PlanFor(ad, req, now, faults).value.items;
              if req.bundleCode == "" then
                |items| == 1 && items[0].serviceCode == req.serviceCode && RunsFor(items[0], now, req.durationDays, [0])
              else
                exists b :: b in bundles && b.code == req.bundleCode && |items| == |b.items|
                  && forall i :: 0 <= i < |b.items| ==>
                       && items[i].serviceCode == b.items[i].serviceCode
                       && RunsFor(items[i], now, b.items[i].duration, b.items[i].bumpSchedule)
    {
      PlanTerms(services, bundles, Prices(PriceRules(table, Some(ad.regionId), Some(ad.categoryId))), req, now);
      hide BuildPlan;
    }

    /**
     Buys a promotion: debit, then activate, then refund if the activation failed. `planned`
     and `charged` are the two clock readings, `ids` the fresh row ids.
     */
    method Promote(user: UserId, found: Option<AdView>, req: Request, planned: Time, charged: Time,
                   ids: nat -> PromotionId, faults: Faults)
      returns (outcome: Outcome)
      modifies repo
      ensures var before, after := old(repo.Tables()), repo.Tables();
              var plan := if found.Some? then PlanFor(found.value, req, planned, faults) else Err(AdNotFound);
              match Refusal(user, found, plan, faults)
              case Some(e) => outcome == Rejected(e) && after == before
              case None =>
                && Bought(before, after, user, found.value, plan.value, RowsFor(user, found.value, plan.value, charged, ids),
                          faults, outcome)
                && (outcome.Promoted? ==> GetsWhatWasPlanned(outcome.rows, user, found.value, plan.value, charged, ids))
    {
      if faults.ad {
        return Rejected(Infrastructure);
      }
      if found.None? {
        return Rejected(AdNotFound);
      }
      var ad := found.value;
      if ad.userId != user {
        return Rejected(NotAdOwner);
      }
      if !ad.active {
        return Rejected(AdNotPromotable);
      }
      var plan := Plan(ad, req, planned, faults);
      if plan.Err? {
        return Rejected(plan.error);
      }
      if plan.value.amount <= 0 {
        return Rejected(InvalidAmount);
      }
      PlanKnowsTop(services, bundles, Prices(PriceRules(table, Some(ad.regionId), Some(ad.categoryId))), req, planned);
      hide BuildPlan;
      hide KnowsTop;
      hide Bought;
      hide GetsWhatWasPlanned;
      outcome := Buy(user, ad, plan.value, charged, ids, faults);
    }

    /** The saga of an admitted purchase. */
    method Buy(user: UserId, ad: AdView, plan: Plan, charged: Time, ids: nat -> PromotionId, faults: Faults) returns (outcome: Outcome)
      requires plan.amount > 0 && KnowsTop(plan) && ad.userId == user
      modifies repo
      ensures Bought(old(repo.Tables()), repo.Tables(), user, ad, plan, RowsFor(user, ad, plan, charged, ids), faults, outcome)
      ensures outcome.Promoted? ==> GetsWhatWasPlanned(outcome.rows, user, ad, plan, charged, ids)
    {
      hide Settled;
      hide Told;
      hide Announced;
      hide ActivatedEvent;
      hide KnowsTop;
      if faults.debit.RolledBack? {
        return Rejected(Infrastructure);
      }
      var debit := repo.Debit(user, plan.amount, Purchase, Some(ForAd(ad.id)));
      if faults.debit.Unheard? {
        return Rejected(Infrastructure);
      }
      if debit.Err? {
        return Rejected(debit.error);
      }
      var rows, topEndsAt := MakeRows(user, ad, plan, charged, ids);
      EventAnnounces(plan, ad, rows, user, charged);
      outcome := Deliver(user, ad, plan, rows, topEndsAt, faults);
      SagaTells(old(repo.Tables()), repo.Tables(), user, ad, plan, rows, faults, outcome);
      PriceIsPaid(old(repo.Tables()), repo.Tables(), user, ad, plan, rows, faults, outcome);
      DeliverOutcome(old(repo.Tables()), repo.Tables(), user, ad, plan, rows, faults, outcome);
      hide Delivers;
      hide PaymentsRuns.PlannedRows;
      hide RowFor;
      hide Sum;
      hide DebitTx;
      hide BalanceOf;
      hide TopEndsAt;
    }

    /** The saga once the price is taken. */
    method Deliver(user: UserId, ad: AdView, plan: Plan, rows: seq<AdPromotion>, topEndsAt: Option<Time>, faults: Faults)
      returns (outcome: Outcome)
      requires plan.amount > 0 && topEndsAt == TopEndsAt(plan.items) && ad.userId == user
      modifies repo
      ensures Settled(old(repo.Tables()), repo.Tables(), user, ad, plan, rows, faults, outcome)
    {
      if faults.event {
        return EventFailed;
      }
      var rank := 0;
      if plan.isTop && topEndsAt.Some? {
        rank := Unix(topEndsAt.value);
      }
      var ev := PromotionActivated(ad.id, ad.userId, ad.title, plan.primary, plan.isTop, rank, topEndsAt);
      if !faults.activation.RolledBack? {
        repo.ActivatePromotions(rows, ev);
      }
      if faults.activation.Confirmed? {
        return Promoted(rows);
      }
      if !faults.compensation.RolledBack? {
        var _ := repo.Refund(user, plan.amount, Some(ForAd(ad.id)), "activation_failed");
      }
      outcome := if faults.compensation.Confirmed? then Compensated else CompensationFailed;
    }

    /** One row per planned item; the first carries the whole price, so that it is refunded pro rata. */
    method MakeRows(user: UserId, ad: AdView, plan: Plan, now: Time, ids: nat -> PromotionId)
      returns (rows: seq<AdPromotion>, topEndsAt: Option<Time>)
      ensures GetsWhatWasPlanned(rows, user, ad, plan, now, ids)
      ensures topEndsAt == TopEndsAt(plan.items)
    {
      var items := plan.items;
      rows, topEndsAt := [], None;
      for i := 0 to |items|
        invariant |rows| == i
        invariant topEndsAt == TopEndsAt(items[..i])
        invariant forall j :: 0 <= j < i ==> rows[j] == RowFor(user, ad, plan, now, ids, j)
      {
        var amount := 0;
        if i == 0 {
          amount := plan.amount;
        }
        rows := rows + [AdPromotion(ids(i), ad.id, user, items[i].serviceCode, plan.bundleCode, Active,
                                    amount, now, items[i].endsAt, items[i].schedule, None)];
        assert items[..i + 1][..i] == items[..i];
        if IsTopService(items[i].serviceCode) {
          topEndsAt := items[i].endsAt;
        }
      }
      assert items[..|items|] == items;
      PricedOnce(rows, plan.amount);
    }

    method Plan(ad: AdView, req: Request, now: Time, faults: Faults) returns (plan: Result<Plan, Error>)
      ensures plan == PlanFor(ad, req, now, faults)
    {
      if faults.rules {
        return Err(Infrastructure);
      }
      var prices := ResolvePrices(PriceRules(table, Some(ad.regionId), Some(ad.categoryId)));
      if faults.products && (req.bundleCode != "" || req.serviceCode != "") {
        return Err(Infrastructure);
      }
      if req.bundleCode != "" {
        plan := MakeBundlePlan(bundles, req.bundleCode, prices, now);
      } else if req.serviceCode != "" {
        plan := ServicePlan(services, req.serviceCode, req.durationDays, prices, now);
      } else {
        plan := Err(EmptyPromotion);
      }
    }
  }

  lemma {:induction false} PricedOnce(rows: seq<AdPromotion>, price: int)
    requires forall i :: 0 <= i < |rows| ==> rows[i].amount == if i == 0 then price else 0
    ensures Sum(rows, Amount()) == if rows == [] then 0 else price
  {
    if rows != [] {
      assert rows == [rows[0]] + rows[1..];
      SumConcat([rows[0]], rows[1..], Amount());
      SumSingleton(rows[0], Amount());
      SumZero(rows[1..], Amount());
    }
  }

  /** A charge is spread over its rows exactly when the plan has an item to carry it: a bundle
      without items is charged and delivers nothing. */
  lemma {:induction false} RowsCarryThePriceIff(rows: seq<AdPromotion>, user: UserId, ad: AdId, price: int)
    requires price > 0 && PaymentsRuns.PlannedRows(rows, user, ad, price)
    ensures Sum(rows, Amount()) == price <==> rows != []
  {
    PricedOnce(rows, price);
  }

  lemma {:induction false} DueOnTheFirst(rows: seq<AdPromotion>, price: int, now: Time)
    requires rows != [] && rows[0].amount == price && rows[0].status == Active && rows[0].startsAt == now
    requires forall i :: 0 < i < |rows| ==> rows[i].amount == 0
    requires 0 < price <= MAX_INT64 && ProductFits(rows[0], now)
    ensures Sum(rows, RefundDue(now)) == if TotalSeconds(rows[0]) > 0 then price else 0
  {
    assert rows == [rows[0]] + rows[1..];
    SumConcat([rows[0]], rows[1..], RefundDue(now));
    SumSingleton(rows[0], RefundDue(now));
    SumZero(rows[1..], RefundDue(now));
    RefundWithinPrice(rows[0], now);
  }

  /** Bought and given back at once: the whole price returns when the first item was sold for a
      term, and nothing does when it was not: a bundle that starts with bumps is never refunded. */
  lemma {:induction false} ImmediateRefund(rows: seq<AdPromotion>, plan: Plan, ad: AdId, user: UserId, now: Time)
    requires Delivers(rows, plan, ad, user, now) && PaymentsRuns.PlannedRows(rows, user, ad, plan.amount)
    requires rows != [] && 0 < plan.amount <= MAX_INT64 && ProductFits(rows[0], now)
    ensures Sum(rows, RefundDue(now)) ==
              if plan.items[0].endsAt.Some? && plan.items[0].endsAt.value >= now + SECOND then plan.amount else 0
  {
    DueOnTheFirst(rows, plan.amount, now);
  }

  datatype AdSubject = AdExpired | AdBlocked | AdDeleted | AdUpdated | OtherSubject

  function RefundReason(subject: AdSubject): string {
    if subject == AdDeleted then "ad_deleted" else "ad_blocked"
  }

  /** What closing an ad's services does, given the tables when they are listed. */
  function Closed(db: Db, ad: AdId, reason: string, now: Time): Db {
    var rows := ListRows(db.promotions, ad, None);
    match PaymentsRuns.LastLiveUser(rows)
    case None => db
    case Some(user) => RefundPromotionsTx(db, ad, user, Sum(rows, RefundDue(now)), reason)
  }

  /* What closing means for the owner */

  predicate Unfinished(p: AdPromotion, ad: AdId) {
    p.adId == ad && (p.status.Active? || p.status.Suspended?)
  }

  /** What an ad's unfinished services are worth. */
  function WorthOf(ad: AdId, now: Time): AdPromotion -> int {
    (p: AdPromotion) => if Unfinished(p, ad) then RefundAmount(p, now) else 0
  }

  ghost predicate OwnedBy(promotions: seq<AdPromotion>, ad: AdId, owner: UserId) {
    forall i :: 0 <= i < |promotions| && promotions[i].adId == ad ==> promotions[i].userId == owner
  }

  /** The ad's unfinished services are finished, and nothing else about services changes; their owner
      gets what they are worth, if that is anything, with one announcement, and nobody else gets anything. */
  ghost predicate PaidOut(before: Db, after: Db, ad: AdId, reason: string, now: Time) {
    && |after.promotions| == |before.promotions| && after.payments == before.payments
    && (forall i :: 0 <= i < |before.promotions| ==>
          after.promotions[i] ==
            if Unfinished(before.promotions[i], ad) then before.promotions[i].(status := Refunded) else before.promotions[i])
    && forall owner :: OwnedBy(before.promotions, ad, owner) ==> Receives(before, after, ad, owner, reason, now)
  }

  ghost predicate Receives(before: Db, after: Db, ad: AdId, owner: UserId, reason: string, now: Time) {
    var worth := Sum(before.promotions, WorthOf(ad, now));
    var due := if worth > 0 then worth else 0;
    && BalanceOf(after, owner) == BalanceOf(before, owner) + due
    && (forall other :: other != owner ==> BalanceOf(after, other) == BalanceOf(before, other))
    && after.outbox == before.outbox + (if due > 0 then [WalletRefunded(owner, due, reason)] else [])
    && after.ledger == before.ledger + if due > 0 then RefundPair(before.nextOperation, ad, owner, due) else []
  }

  /** The entries of a refund for an ad: into the owner's wallet, out of the account that top-ups come from. */
  function RefundPair(operation: nat, ad: AdId, owner: UserId, amount: int): seq<Posting> {
    [Posting(operation, Refund, UserWallet, Some(owner), Credit, amount, Some(ForAd(ad))),
     Posting(operation, Refund, ExternalTopup, None, Debit, amount, Some(ForAd(ad)))]
  }

  lemma {:induction false} ListedAreWorth(promotions: seq<AdPromotion>, ad: AdId, now: Time)
    ensures Sum(ListRows(promotions, ad, None), RefundDue(now)) == Sum(promotions, WorthOf(ad, now))
  {
    if promotions != [] {
      var init, p := promotions[..|promotions| - 1], promotions[|promotions| - 1];
      ListedAreWorth(init, ad, now);
      if p.adId == ad {
        SumConcat([p], ListRows(init, ad, None), RefundDue(now));
        SumSingleton(p, RefundDue(now));
      } else {
        assert [] + ListRows(init, ad, None) == ListRows(init, ad, None);
      }
    }
  }

  /** A payee is found exactly when a service of the ad is unfinished, and is then its owner. */
  lemma PayeeFound(promotions: seq<AdPromotion>, ad: AdId)
    ensures PaymentsRuns.LastLiveUser(ListRows(promotions, ad, None)).Some? <==> HasLive(promotions, ad)
    ensures forall owner: UserId :: OwnedBy(promotions, ad, owner) && HasLive(promotions, ad) ==>
              PaymentsRuns.LastLiveUser(ListRows(promotions, ad, None)) == Some(owner)
  {
    var rows := ListRows(promotions, ad, None);
    ListedNewestFirst(promotions, ad, None);
    LastLiveIsLive(rows);
    if i :| 0 <= i < |promotions| && promotions[i].adId == ad && IsLive(promotions[i].status) {
      assert promotions[i] in rows;
    }
  }

  lemma {:induction false} LastLiveIsLive(rows: seq<AdPromotion>)
    ensures var user := PaymentsRuns.LastLiveUser(rows);
            && (user.Some? <==> exists p :: p in rows && IsLive(p.status))
            && (user.Some? ==> exists p :: p in rows && IsLive(p.status) && p.userId == user.value)
  {
    if rows != [] {
      var n := |rows| - 1;
      LastLiveIsLive(rows[..n]);
      assert rows == rows[..n] + [rows[n]];
      assert rows[n] in rows;
    }
  }

  lemma ClosedFinishes(db: Db, ad: AdId, reason: string, now: Time)
    ensures var after := Closed(db, ad, reason, now);
            && |after.promotions| == |db.promotions| && after.payments == db.payments
            && forall i :: 0 <= i < |db.promotions| ==>
                 after.promotions[i] ==
                   if Unfinished(db.promotions[i], ad) then db.promotions[i].(status := Refunded) else db.promotions[i]
  {
    PayeeFound(db.promotions, ad);
    hide Sum;
    hide ListRows;
  }

  lemma ClosedPays(db: Db, ad: AdId, owner: UserId, reason: string, now: Time)
    requires OwnedBy(db.promotions, ad, owner)
    ensures Receives(db, Closed(db, ad, reason, now), ad, owner, reason, now)
  {
    PayeeFound(db.promotions, ad);
    ListedAreWorth(db.promotions, ad, now);
    if !HasLive(db.promotions, ad) {
      SumZero(db.promotions, WorthOf(ad, now));
    }
    hide Sum;
    hide ListRows;
    hide RefundRow;
  }

  lemma ClosedPaysOut(db: Db, ad: AdId, reason: string, now: Time)
    ensures PaidOut(db, Closed(db, ad, reason, now), ad, reason, now)
  {
    ClosedFinishes(db, ad, reason, now);
    forall owner | OwnedBy(db.promotions, ad, owner) ensures Receives(db, Closed(db, ad, reason, now), ad, owner, reason, now) {
      ClosedPays(db, ad, owner, reason, now);
    }
    hide Closed;
    hide Receives;
    hide OwnedBy;
  }

  /** A frozen service is worth what it was worth when it was frozen. */
  lemma FreezeKeepsWorth(db: Db, ad: AdId, frozen: Time, later: Time)
    requires forall i :: 0 <= i < |db.promotions| && db.promotions[i].status.Suspended? ==> db.promotions[i].suspendedAt.Some?
    ensures Sum(SuspendTx(db, ad, frozen).promotions, WorthOf(ad, later)) == Sum(db.promotions, WorthOf(ad, frozen))
  {
    var after := SuspendTx(db, ad, frozen).promotions;
    forall i | 0 <= i < |db.promotions| ensures WorthOf(ad, later)(after[i]) == WorthOf(ad, frozen)(db.promotions[i]) {
      assert after[i] == SuspendRow(db.promotions[i], ad, frozen);
    }
    SumUnchanged(after, WorthOf(ad, later), db.promotions, WorthOf(ad, frozen));
  }

  /** So when the ad is taken down while its services are frozen, its owner gets back what they
      were worth at the freeze, however long that lasted. */
  lemma FrozenServicesArePaid(db: Db, ad: AdId, owner: UserId, frozen: Time, later: Time, after: Db, reason: string)
    requires forall i :: 0 <= i < |db.promotions| && db.promotions[i].status.Suspended? ==> db.promotions[i].suspendedAt.Some?
    requires OwnedBy(db.promotions, ad, owner) && PaidOut(SuspendTx(db, ad, frozen), after, ad, reason, later)
    ensures var worth := Sum(db.promotions, WorthOf(ad, frozen));
            BalanceOf(after, owner) == BalanceOf(db, owner) + if worth > 0 then worth else 0
  {
    FreezeKeepsWorth(db, ad, frozen, later);
    var between := SuspendTx(db, ad, frozen);
    forall i | 0 <= i < |db.promotions| ensures between.promotions[i].adId == db.promotions[i].adId
                                         && between.promotions[i].userId == db.promotions[i].userId {
      assert between.promotions[i] == SuspendRow(db.promotions[i], ad, frozen);
    }
    assert OwnedBy(between.promotions, ad, owner);
    assert Receives(between, after, ad, owner, reason, later);
    hide Sum;
  }

  lemma AnyUnfinished(promotions: seq<AdPromotion>, ad: AdId)
    ensures HasLive(promotions, ad) <==> exists i :: 0 <= i < |promotions| && Unfinished(promotions[i], ad)
  {
    if i :| 0 <= i < |promotions| && promotions[i].adId == ad && IsLive(promotions[i].status) {
      assert Unfinished(promotions[i], ad);
    }
  }

  /** What thawing them does. */
  function Thawed(db: Db, ad: AdId, title: string, now: Time): Db {
    var rows := ListRows(db.promotions, ad, Some(Suspended));
    if rows == [] then db else ResumeTx(db, ad, now, ResumeTopEvent(rows, ad, title, now))
  }

  class LifecycleService {
    const repo: Repo

    constructor (repo: Repo)
      ensures this.repo == repo
    {
      this.repo := repo;
    }

    method Suspend(ad: AdId, now: Time) returns (n: nat)
      modifies repo
      ensures repo.Tables() == SuspendTx(old(repo.Tables()), ad, now)
      ensures n == |Filter(old(repo.promotions), (p: AdPromotion) => p.adId == ad && p.status.Active?)|
    {
      n := repo.SuspendPromotions(ad, now);
    }

    /** Closes an ad's services, paying back what is due on the live ones. */
    method Refund(ad: AdId, reason: string, now: Time) returns (done: bool)
      modifies repo
      ensures repo.Tables() == Closed(old(repo.Tables()), ad, reason, now)
      ensures PaidOut(old(repo.Tables()), repo.Tables(), ad, reason, now)
      ensures done <==> exists i :: 0 <= i < |old(repo.promotions)| && Unfinished(old(repo.promotions)[i], ad)
    {
      PayeeFound(repo.promotions, ad);
      ClosedPaysOut(repo.Tables(), ad, reason, now);
      AnyUnfinished(repo.promotions, ad);
      hide PaidOut;
      hide Unfinished;
      var rows := repo.ListAdPromotions(ad, None);
      var amount, userId := DueOn(rows, now);
      if userId.None? {
        return false;
      }
      done := repo.RefundPromotions(ad, userId.value, amount, reason);
    }

    /** What is due on the listed rows, and to whom. */
    method DueOn(rows: seq<AdPromotion>, now: Time) returns (amount: int, userId: Option<UserId>)
      ensures amount == Sum(rows, RefundDue(now)) && userId == PaymentsRuns.LastLiveUser(rows)
    {
      amount, userId := 0, None;
      for i := 0 to |rows|
        invariant amount == Sum(rows[..i], RefundDue(now))
        invariant userId == PaymentsRuns.LastLiveUser(rows[..i])
      {
        var p := rows[i];
        assert rows[..i + 1][..i] == rows[..i];
        if p.status.Active? || p.status.Suspended? {
          userId := Some(p.userId);
          amount := amount + RefundAmount(p, now);
        }
      }
      assert rows[..|rows|] == rows;
    }

    /** Thaws an ad's services and announces the TOP one among them. */
    method Resume(ad: AdId, title: string, now: Time) returns (resumed: bool)
      modifies repo
      ensures repo.Tables() == Thawed(old(repo.Tables()), ad, title, now)
      ensures resumed == HasSuspended(old(repo.promotions), ad)
    {
      var rows := repo.ListAdPromotions(ad, Some(Suspended));
      ListedIffSuspended(repo.promotions, ad);
      if |rows| == 0 {
        return false;
      }
      var ev := BuildResumeEvent(ad, title, rows, now);
      resumed := repo.ResumePromotions(ad, now, ev);
    }

    /** Dispatches one event about an ad; an unexpected one is refused and changes nothing. */
    method Handle(subject: AdSubject, ad: AdId, active: bool, title: string, now: Time) returns (ok: bool)
      modifies repo
      ensures ok <==> subject != OtherSubject
      ensures repo.Tables() ==
                match subject
                case AdExpired => SuspendTx(old(repo.Tables()), ad, now)
                case AdBlocked => Closed(old(repo.Tables()), ad, "ad_blocked", now)
                case AdDeleted => Closed(old(repo.Tables()), ad, "ad_deleted", now)
                case AdUpdated => if active then Thawed(old(repo.Tables()), ad, title, now) else old(repo.Tables())
                case OtherSubject => old(repo.Tables())
      ensures subject.AdBlocked? ==> PaidOut(old(repo.Tables()), repo.Tables(), ad, "ad_blocked", now)
      ensures subject.AdDeleted? ==> PaidOut(old(repo.Tables()), repo.Tables(), ad, "ad_deleted", now)
    {
      hide PaidOut;
      ok := true;
      match subject
      case AdExpired =>
        var _ := Suspend(ad, now);
      case AdUpdated =>
        if active {
          var _ := Resume(ad, title, now);
        }
      case OtherSubject =>
        ok := false;
      case _ =>
        var _ := Refund(ad, RefundReason(subject), now);
    }

    method BuildResumeEvent(ad: AdId, title: string, rows: seq<AdPromotion>, now: Time) returns (ev: Option<Event>)
      ensures ev == ResumeTopEvent(rows, ad, title, now)
    {
      for i := 0 to |rows|
        invariant ResumeTopEvent(rows, ad, title, now) == ResumeTopEvent(rows[i..], ad, title, now)
      {
        var p := rows[i];
        assert rows[i..][0] == p && rows[i..][1..] == rows[i + 1..];
        if IsTopService(p.serviceCode) && p.endsAt.Some? && p.suspendedAt.Some? {
          var newEnds := p.endsAt.value + Sub(now, p.suspendedAt.value);
          return Some(PromotionActivated(ad, p.userId, title, p.serviceCode, true, Unix(newEnds), Some(newEnds)));
        }
      }
      ev := None;
    }
  }

  lemma {:induction false} ListedIffSuspended(promotions: seq<AdPromotion>, ad: AdId)
    ensures ListRows(promotions, ad, Some(Suspended)) != [] <==> HasSuspended(promotions, ad)
  {
    if promotions != [] {
      var n := |promotions| - 1;
      ListedIffSuspended(promotions[..n], ad);
      if HasSuspended(promotions[..n], ad) {
        var i :| 0 <= i < n && promotions[..n][i].adId == ad && promotions[..n][i].status.Suspended?;
        assert promotions[i] == promotions[..n][i];
      }
      if HasSuspended(promotions, ad) && !(promotions[n].adId == ad && promotions[n].status.Suspended?) {
        var i :| 0 <= i < |promotions| && promotions[i].adId == ad && promotions[i].status.Suspended?;
        assert promotions[..n][i] == promotions[i];
      }
    }
  }

  /** A second delivery of the same event finds nothing live and changes nothing. */
  lemma {:induction false} RefundIsIdempotent(db: Db, ad: AdId, user: UserId, amount: int, reason: string, again: int)
    ensures var once := RefundPromotionsTx(db, ad, user, amount, reason);
            RefundPromotionsTx(once, ad, user, again, reason) == once
  {
    var once := RefundPromotionsTx(db, ad, user, amount, reason);
    if HasLive(db.promotions, ad) {
      forall i | 0 <= i < |once.promotions| ensures !(once.promotions[i].adId == ad && IsLive(once.promotions[i].status)) {
        assert once.promotions[i] == RefundRow(db.promotions[i], ad);
      }
    }
  }
}
