/**
 What a promotion costs: price rules narrowed to a region and a category, the most
 specific rule per product and duration, the catalogue quoted to buyers and the plan a
 purchase is charged by (services/payments/internal/domain/promotion.go,
 services/payments/internal/app/catalog.go, services/payments/internal/app/promotion_ad.go).
 */
module Pricing {
  import opened Clock
  import opened Collections
  import opened RefundArithmetic
  import opened PaymentsDb

  datatype Product = Service | Bundle

  datatype PriceRule = PriceRule(
    product: Product,
    code: string,
    region: Option<int>,
    category: Option<string>,
    duration: int,
    amount: int)

  datatype PriceKey = PriceKey(product: Product, code: string, duration: int)

  datatype ServiceInfo = ServiceInfo(code: string, durations: seq<int>)

  datatype BundleItem = BundleItem(serviceCode: string, duration: int, bumpSchedule: seq<int>)

  datatype BundleInfo = BundleInfo(code: string, items: seq<BundleItem>)

  function KeyOf(r: PriceRule): PriceKey { PriceKey(r.product, r.code, r.duration) }

  function Specificity(r: PriceRule): nat {
    (if r.region.Some? then 2 else 0) + (if r.category.Some? then 1 else 0)
  }

  /** The rules of the table that apply: general, or about exactly what was asked. */
  function Applicable(region: Option<int>, category: Option<string>): PriceRule -> bool {
    (r: PriceRule) => (r.region.None? || r.region == region) && (r.category.None? || r.category == category)
  }

  function PriceRules(table: seq<PriceRule>, region: Option<int>, category: Option<string>): seq<PriceRule> {
    Filter(table, Applicable(region, category))
  }

  /** The first of the most specific rules seen for each key. */
  function Best(rules: seq<PriceRule>): map<PriceKey, PriceRule> {
    if rules == [] then map[] else
    var best, r := Best(rules[..|rules| - 1]), rules[|rules| - 1];
    if KeyOf(r) !in best || Specificity(r) > Specificity(best[KeyOf(r)]) then best[KeyOf(r) := r] else best
  }

  function Prices(rules: seq<PriceRule>): map<PriceKey, int> {
    var best := Best(rules);
    map k | k in best :: best[k].amount
  }

  method ResolvePrices(rules: seq<PriceRule>) returns (prices: map<PriceKey, int>)
    ensures prices == Prices(rules)
  {
    var best: map<PriceKey, PriceRule> := map[];
    for i := 0 to |rules|
      invariant best == Best(rules[..i])
    {
      var r := rules[i];
      assert rules[..i + 1][..i] == rules[..i];
      var k := KeyOf(r);
      if k !in best || Specificity(r) > Specificity(best[k]) {
        best := best[k := r];
      }
    }
    assert rules[..|rules|] == rules;
    prices := map[];
    var keys := best.Keys;
    while keys != {}
      invariant keys <= best.Keys
      invariant prices == map k | k in best && k !in keys :: best[k].amount
      decreases keys
    {
      var k :| k in keys;
      prices := prices[k := best[k].amount];
      keys := keys - {k};
    }
  }

  /** `r` prices its key among `rules`: it is one of them and none of them is more specific. */
  ghost predicate MostSpecific(r: PriceRule, rules: seq<PriceRule>) {
    r in rules && forall other :: other in rules && KeyOf(other) == KeyOf(r) ==> Specificity(other) <= Specificity(r)
  }

  /** A key is priced exactly when a rule has it, by a rule as specific as any. */
  lemma {:induction false} BestIsMostSpecific(rules: seq<PriceRule>)
    ensures forall k :: k in Best(rules) <==> exists r :: r in rules && KeyOf(r) == k
    ensures forall k :: k in Best(rules) ==> KeyOf(Best(rules)[k]) == k && MostSpecific(Best(rules)[k], rules)
  {
    if rules != [] {
      var init, r := rules[..|rules| - 1], rules[|rules| - 1];
      BestIsMostSpecific(init);
      assert rules == init + [r];
      forall k ensures k in Best(rules) <==> exists x :: x in rules && KeyOf(x) == k {
        assert (exists x :: x in rules && KeyOf(x) == k) <==> KeyOf(r) == k || exists x :: x in init && KeyOf(x) == k;
      }
    }
  }

  /** The table holds one rule per product, duration, region and category. */
  ghost predicate UniqueRules(table: seq<PriceRule>) {
    forall r, q :: r in table && q in table && SameTarget(r, q) ==> r == q
  }

  predicate SameTarget(r: PriceRule, q: PriceRule) {
    && r.product == q.product && r.code == q.code && r.duration == q.duration
    && r.region == q.region && r.category == q.category
  }

  /** Among the applicable rules of a product, specificity tells region and category apart. */
  lemma SpecificityDecides(table: seq<PriceRule>, region: Option<int>, category: Option<string>, r: PriceRule, q: PriceRule)
    requires UniqueRules(table)
    requires r in PriceRules(table, region, category) && q in PriceRules(table, region, category)
    requires KeyOf(r) == KeyOf(q) && Specificity(r) == Specificity(q)
    ensures r == q
  {
    FilterMembers(table, Applicable(region, category));
    assert r.region == q.region && r.category == q.category;
  }

  /** The prices are those of the most specific applicable rules, whatever order the
      database returned them in. */
  lemma PricesIgnoreOrder(table: seq<PriceRule>, shuffled: seq<PriceRule>, region: Option<int>, category: Option<string>)
    requires UniqueRules(table)
    requires forall r :: r in table <==> r in shuffled
    ensures Prices(PriceRules(table, region, category)) == Prices(PriceRules(shuffled, region, category))
  {
    var a, b := PriceRules(table, region, category), PriceRules(shuffled, region, category);
    FilterMembers(table, Applicable(region, category));
    FilterMembers(shuffled, Applicable(region, category));
    BestIsMostSpecific(a);
    BestIsMostSpecific(b);
    forall k | k in Best(a) ensures k in Best(b) && Best(a)[k] == Best(b)[k] {
      assert Best(a)[k] in b;
      assert MostSpecific(Best(a)[k], a) && MostSpecific(Best(b)[k], b);
      SpecificityDecides(table, region, category, Best(a)[k], Best(b)[k]);
    }
    forall k | k in Best(b) ensures k in Best(a) {
      assert Best(b)[k] in a;
    }
  }

  /** A rule of the table for this product and term, naming exactly this region and category, or neither. */
  ghost predicate RuleFor(table: seq<PriceRule>, k: PriceKey, region: Option<int>, category: Option<string>, r: PriceRule) {
    && r in table && r.product == k.product && r.code == k.code && r.duration == k.duration
    && r.region == region && r.category == category
  }

  ghost predicate HasRule(table: seq<PriceRule>, k: PriceKey, region: Option<int>, category: Option<string>) {
    exists r :: RuleFor(table, k, region, category, r)
  }

  ghost predicate Says(table: seq<PriceRule>, k: PriceKey, region: Option<int>, category: Option<string>, price: Option<int>) {
    exists r :: RuleFor(table, k, region, category, r) && price == Some(r.amount)
  }

  /** Whose price counts: the rule naming region and category; failing that the one naming the
      region alone; failing that the one naming the category alone; failing that the general one. */
  ghost predicate ByPrecedence(table: seq<PriceRule>, k: PriceKey, region: Option<int>, category: Option<string>, price: Option<int>) {
    if HasRule(table, k, region, category) then Says(table, k, region, category, price)
    else if HasRule(table, k, region, None) then Says(table, k, region, None, price)
    else if HasRule(table, k, None, category) then Says(table, k, None, category, price)
    else if HasRule(table, k, None, None) then Says(table, k, None, None, price)
    else price == None
  }

  /** What a service of some days and a bundle cost in a region and a category. */
  lemma PricesByPrecedence(table: seq<PriceRule>, region: Option<int>, category: Option<string>, code: string, days: int)
    requires UniqueRules(table)
    ensures var prices := Prices(PriceRules(table, region, category));
            && ByPrecedence(table, PriceKey(Service, code, days), region, category, ServicePrice(prices, code, days))
            && ByPrecedence(table, PriceKey(Bundle, code, 0), region, category, BundlePrice(prices, code))
  {
    KeyByPrecedence(table, region, category, PriceKey(Service, code, days));
    KeyByPrecedence(table, region, category, PriceKey(Bundle, code, 0));
    hide ByPrecedence;
  }

  /** The rule applies to the region and category asked about, and is for this product and term. */
  predicate Concerns(r: PriceRule, k: PriceKey, region: Option<int>, category: Option<string>) {
    && r.product == k.product && r.code == k.code && r.duration == k.duration
    && (r.region.None? || r.region == region) && (r.category.None? || r.category == category)
  }

  lemma PricedByTheMostSpecific(table: seq<PriceRule>, region: Option<int>, category: Option<string>, k: PriceKey)
    ensures var prices := Prices(PriceRules(table, region, category));
            if k in prices then
              exists r :: r in table && Concerns(r, k, region, category) && prices[k] == r.amount
                && forall q :: q in table && Concerns(q, k, region, category) ==> Specificity(q) <= Specificity(r)
            else forall q :: q in table ==> !Concerns(q, k, region, category)
  {
    var rules := PriceRules(table, region, category);
    FilterMembers(table, Applicable(region, category));
    BestIsMostSpecific(rules);
    forall q | q in table && Concerns(q, k, region, category) ensures q in rules && KeyOf(q) == k {}
    hide Best;
    if k in Best(rules) {
      var r := Best(rules)[k];
      assert MostSpecific(r, rules);
      assert r in table && Concerns(r, k, region, category);
    }
  }

  lemma KeyByPrecedence(table: seq<PriceRule>, region: Option<int>, category: Option<string>, k: PriceKey)
    requires UniqueRules(table)
    ensures var prices := Prices(PriceRules(table, region, category));
            ByPrecedence(table, k, region, category, if k in prices then Some(prices[k]) else None)
  {
    PricedByTheMostSpecific(table, region, category, k);
    hide PriceRules;
    var prices := Prices(PriceRules(table, region, category));
    hide Prices;
    if k in prices {
      var r :| r in table && Concerns(r, k, region, category) && prices[k] == r.amount
        && forall q :: q in table && Concerns(q, k, region, category) ==> Specificity(q) <= Specificity(r);
      assert RuleFor(table, k, r.region, r.category, r);
    }
  }

  /** A rule priced for a region and a category wins over every other rule of its product. */
  lemma SpecificRuleWins(table: seq<PriceRule>, region: int, category: string, r: PriceRule)
    requires UniqueRules(table) && r in table && r.region == Some(region) && r.category == Some(category)
    ensures var prices := Prices(PriceRules(table, Some(region), Some(category)));
            KeyOf(r) in prices && prices[KeyOf(r)] == r.amount
  {
    var rules := PriceRules(table, Some(region), Some(category));
    FilterMembers(table, Applicable(Some(region), Some(category)));
    BestIsMostSpecific(rules);
    assert KeyOf(r) in Best(rules);
    assert MostSpecific(Best(rules)[KeyOf(r)], rules);
    SpecificityDecides(table, Some(region), Some(category), r, Best(rules)[KeyOf(r)]);
  }

  /* The catalogue */

  datatype PriceOption = PriceOption(duration: int, amount: int)

  datatype PricedService = PricedService(service: ServiceInfo, options: seq<PriceOption>)

  datatype PricedBundle = PricedBundle(bundle: BundleInfo, amount: int, priced: bool)

  datatype Catalog = Catalog(services: seq<PricedService>, bundles: seq<PricedBundle>)

  function ServicePrice(prices: map<PriceKey, int>, code: string, duration: int): Option<int> {
    var k := PriceKey(Service, code, duration);
    if k in prices then Some(prices[k]) else None
  }

  function BundlePrice(prices: map<PriceKey, int>, code: string): Option<int> {
    var k := PriceKey(Bundle, code, 0);
    if k in prices then Some(prices[k]) else None
  }

  function OptionsOf(prices: map<PriceKey, int>, code: string, durations: seq<int>): seq<PriceOption> {
    if durations == [] then [] else
    var d := durations[|durations| - 1];
    OptionsOf(prices, code, durations[..|durations| - 1])
      + match ServicePrice(prices, code, d) case None => [] case Some(amount) => [PriceOption(d, amount)]
  }

  function PriceService(prices: map<PriceKey, int>): ServiceInfo -> PricedService {
    (svc: ServiceInfo) => PricedService(svc, OptionsOf(prices, svc.code, svc.durations))
  }

  function PriceBundle(prices: map<PriceKey, int>): BundleInfo -> PricedBundle {
    (b: BundleInfo) => match BundlePrice(prices, b.code)
                       case None => PricedBundle(b, 0, false)
                       case Some(amount) => PricedBundle(b, amount, true)
  }

  function CatalogOf(services: seq<ServiceInfo>, bundles: seq<BundleInfo>, prices: map<PriceKey, int>): Catalog {
    Catalog(Map(services, PriceService(prices)), Map(bundles, PriceBundle(prices)))
  }

  method GetCatalog(services: seq<ServiceInfo>, bundles: seq<BundleInfo>, table: seq<PriceRule>,
                    region: Option<int>, category: Option<string>)
    returns (catalog: Catalog)
    ensures catalog == CatalogOf(services, bundles, Prices(PriceRules(table, region, category)))
  {
    var prices := ResolvePrices(PriceRules(table, region, category));
    var pricedServices: seq<PricedService> := [];
    for i := 0 to |services|
      invariant |pricedServices| == i
      invariant forall j :: 0 <= j < i ==> pricedServices[j] == PriceService(prices)(services[j])
    {
      var svc := services[i];
      var options: seq<PriceOption> := [];
      for d := 0 to |svc.durations|
        invariant options == OptionsOf(prices, svc.code, svc.durations[..d])
      {
        assert svc.durations[..d + 1][..d] == svc.durations[..d];
        var amount := ServicePrice(prices, svc.code, svc.durations[d]);
        if amount.Some? {
          options := options + [PriceOption(svc.durations[d], amount.value)];
        }
      }
      assert svc.durations[..|svc.durations|] == svc.durations;
      pricedServices := pricedServices + [PricedService(svc, options)];
    }
    var pricedBundles: seq<PricedBundle> := [];
    for i := 0 to |bundles|
      invariant |pricedBundles| == i
      invariant forall j :: 0 <= j < i ==> pricedBundles[j] == PriceBundle(prices)(bundles[j])
    {
      var pb := PricedBundle(bundles[i], 0, false);
      var amount := BundlePrice(prices, bundles[i].code);
      if amount.Some? {
        pb := pb.(amount := amount.value, priced := true);
      }
      pricedBundles := pricedBundles + [pb];
    }
    catalog := Catalog(pricedServices, pricedBundles);
    assert pricedServices == Map(services, PriceService(prices));
    assert pricedBundles == Map(bundles, PriceBundle(prices));
  }

  /* The plan of a purchase */

  datatype Request = Request(serviceCode: string, durationDays: int, bundleCode: string)

  datatype PromotionItem = PromotionItem(serviceCode: string, endsAt: Option<Time>, schedule: seq<int>)

  datatype Plan = Plan(items: seq<PromotionItem>, amount: int, primary: string, isTop: bool, bundleCode: Option<string>)

  predicate IsBump(code: string) { code == "BUMP" }

  function EndsAt(now: Time, days: int): Option<Time> { Some(now + days * DAY) }

  function FindService(services: seq<ServiceInfo>, code: string): Option<ServiceInfo> {
    if services == [] then None
    else if services[0].code == code then Some(services[0])
    else FindService(services[1..], code)
  }

  function FindBundle(bundles: seq<BundleInfo>, code: string): Option<BundleInfo> {
    if bundles == [] then None
    else if bundles[0].code == code then Some(bundles[0])
    else FindBundle(bundles[1..], code)
  }

  function ServicePlan(services: seq<ServiceInfo>, code: string, duration: int, prices: map<PriceKey, int>, now: Time)
    : Result<Plan, Error>
  {
    match FindService(services, code)
    case None => Err(UnknownService)
    case Some(svc) =>
      if duration !in svc.durations then Err(InvalidDuration) else
      match ServicePrice(prices, code, duration)
      case None => Err(NoPrice)
      case Some(amount) =>
        var item := if IsBump(code) then PromotionItem(code, None, [0]) else PromotionItem(code, EndsAt(now, duration), []);
        Ok(Plan([item], amount, code, IsTopService(code), None))
  }

  function ItemOf(now: Time): BundleItem -> PromotionItem {
    (bi: BundleItem) =>
      if IsBump(bi.serviceCode) then PromotionItem(bi.serviceCode, None, bi.bumpSchedule)
      else PromotionItem(bi.serviceCode, EndsAt(now, bi.duration), [])
  }

  predicate HasTop(items: seq<BundleItem>) {
    exists i :: 0 <= i < |items| && IsTopService(items[i].serviceCode)
  }

  /** TOP leads a bundle; failing that, its first service. */
  function Primary(items: seq<BundleItem>): string {
    if HasTop(items) then "TOP" else if items == [] then "" else items[0].serviceCode
  }

  function BundlePlan(bundles: seq<BundleInfo>, code: string, prices: map<PriceKey, int>, now: Time): Result<Plan, Error> {
    match FindBundle(bundles, code)
    case None => Err(UnknownBundle)
    case Some(b) =>
      match BundlePrice(prices, code)
      case None => Err(NoPrice)
      case Some(amount) => Ok(Plan(Map(b.items, ItemOf(now)), amount, Primary(b.items), HasTop(b.items), Some(code)))
  }

  function BuildPlan(services: seq<ServiceInfo>, bundles: seq<BundleInfo>, prices: map<PriceKey, int>, req: Request, now: Time)
    : Result<Plan, Error>
  {
    if req.bundleCode != "" then BundlePlan(bundles, req.bundleCode, prices, now)
    else if req.serviceCode != "" then ServicePlan(services, req.serviceCode, req.durationDays, prices, now)
    else Err(EmptyPromotion)
  }

  /** A bundle's plan, built item by item as the source builds it. */
  method MakeBundlePlan(bundles: seq<BundleInfo>, code: string, prices: map<PriceKey, int>, now: Time)
    returns (r: Result<Plan, Error>)
    ensures r == BundlePlan(bundles, code, prices, now)
  {
    var bundle := FindBundle(bundles, code);
    if bundle.None? {
      return Err(UnknownBundle);
    }
    var amount := BundlePrice(prices, code);
    if amount.None? {
      return Err(NoPrice);
    }
    var bundleItems := bundle.value.items;
    var items: seq<PromotionItem> := [];
    var primary, isTop := "", false;
    for i := 0 to |bundleItems|
      invariant |items| == i && forall j :: 0 <= j < i ==> items[j] == ItemOf(now)(bundleItems[j])
      invariant isTop == HasTop(bundleItems[..i]) && primary == if isTop then "TOP" else ""
    {
      var bi := bundleItems[i];
      var it := PromotionItem(bi.serviceCode, None, []);
      if IsBump(bi.serviceCode) {
        it := it.(schedule := bi.bumpSchedule);
      } else {
        it := it.(endsAt := EndsAt(now, bi.duration));
      }
      items := items + [it];
      assert forall j :: 0 <= j < i ==> bundleItems[..i + 1][j] == bundleItems[..i][j];
      assert HasTop(bundleItems[..i]) ==> HasTop(bundleItems[..i + 1]);
      if IsTopService(bi.serviceCode) {
        primary, isTop := bi.serviceCode, true;
        assert bundleItems[..i + 1][i] == bi;
      }
    }
    assert bundleItems[..|bundleItems|] == bundleItems;
    if primary == "" && |bundleItems| > 0 {
      primary := bundleItems[0].serviceCode;
    }
    assert items == Map(bundleItems, ItemOf(now));
    r := Ok(Plan(items, amount.value, primary, isTop, Some(code)));
  }

  /** Every item planned is either a bump with its days or runs for the term it was sold for. */
  ghost predicate RunsFor(item: PromotionItem, now: Time, days: int, schedule: seq<int>) {
    if item.serviceCode == "BUMP" then item.endsAt == None && item.schedule == schedule
    else item.endsAt == Some(now + days * DAY) && item.schedule == []
  }

  /** A plan of one service runs for the days asked for, which are among those on sale, and a single
      bump is for the day of purchase; the plan of a bundle has an item for each of its services, and
      a TOP service leads it, or else the first. */
  lemma PlanTerms(services: seq<ServiceInfo>, bundles: seq<BundleInfo>, prices: map<PriceKey, int>, req: Request, now: Time)
    requires UniqueServices(services) && UniqueBundles(bundles)
    requires BuildPlan(services, bundles, prices, req, now).Ok?
    ensures var plan := BuildPlan(services, bundles, prices, req, now).value;
            && (plan.isTop <==> exists i :: 0 <= i < |plan.items| && IsTopService(plan.items[i].serviceCode))
            && (plan.isTop ==> plan.primary == "TOP")
            && (!plan.isTop ==> plan.primary == if plan.items == [] then "" else plan.items[0].serviceCode)
            && plan.bundleCode == (if req.bundleCode != "" then Some(req.bundleCode) else None)
            && (plan.bundleCode.None? ==>
                  && |plan.items| == 1 && plan.items[0].serviceCode == plan.primary == req.serviceCode
                  && RunsFor(plan.items[0], now, req.durationDays, [0])
                  && exists svc :: svc in services && svc.code == req.serviceCode && req.durationDays in svc.durations)
            && (plan.bundleCode.Some? ==>
                  exists b :: b in bundles && b.code == req.bundleCode && |plan.items| == |b.items|
                    && forall i :: 0 <= i < |b.items| ==>
                         && plan.items[i].serviceCode == b.items[i].serviceCode
                         && RunsFor(plan.items[i], now, b.items[i].duration, b.items[i].bumpSchedule))
  {
    var plan := BuildPlan(services, bundles, prices, req, now).value;
    if req.bundleCode != "" {
      FindBundleFinds(bundles, req.bundleCode);
      var b := FindBundle(bundles, req.bundleCode).value;
      assert b in bundles && plan.items == Map(b.items, ItemOf(now));
      if i :| 0 <= i < |b.items| && IsTopService(b.items[i].serviceCode) {
        assert IsTopService(plan.items[i].serviceCode);
      }
    } else {
      FindServiceFinds(services, req.serviceCode);
      assert FindService(services, req.serviceCode).value in services;
      assert plan.items[0].serviceCode == req.serviceCode;
    }
  }

  /** Why a request cannot be planned. */
  lemma PlanFailsBecause(services: seq<ServiceInfo>, bundles: seq<BundleInfo>, prices: map<PriceKey, int>, req: Request, now: Time)
    requires UniqueServices(services) && UniqueBundles(bundles)
    ensures var plan := BuildPlan(services, bundles, prices, req, now);
            if req.bundleCode != "" then
              && (plan == Err(UnknownBundle) <==> forall b :: b in bundles ==> b.code != req.bundleCode)
              && (plan == Err(NoPrice) <==>
                    (exists b :: b in bundles && b.code == req.bundleCode) && BundlePrice(prices, req.bundleCode).None?)
              && (plan.Err? ==> plan.error == UnknownBundle || plan.error == NoPrice)
            else if req.serviceCode != "" then
              && (plan == Err(UnknownService) <==> forall s :: s in services ==> s.code != req.serviceCode)
              && (plan == Err(InvalidDuration) <==>
                    exists s :: s in services && s.code == req.serviceCode && req.durationDays !in s.durations)
              && (plan == Err(NoPrice) <==>
                    (exists s :: s in services && s.code == req.serviceCode && req.durationDays in s.durations)
                    && ServicePrice(prices, req.serviceCode, req.durationDays).None?)
              && (plan.Err? ==> plan.error == UnknownService || plan.error == InvalidDuration || plan.error == NoPrice)
            else plan == Err(EmptyPromotion)
  {
    FindBundleFinds(bundles, req.bundleCode);
    FindServiceFinds(services, req.serviceCode);
    if b :| b in bundles && b.code == req.bundleCode {
      var i :| 0 <= i < |bundles| && bundles[i] == b;
      assert FindBundle(bundles, req.bundleCode) == Some(b);
    }
    forall s | s in services && s.code == req.serviceCode ensures FindService(services, req.serviceCode) == Some(s) {
      var i :| 0 <= i < |services| && services[i] == s;
    }
  }

  /* What is charged is what is quoted. */

  ghost predicate UniqueServices(services: seq<ServiceInfo>) {
    forall i, j :: 0 <= i < j < |services| ==> services[i].code != services[j].code
  }

  ghost predicate UniqueBundles(bundles: seq<BundleInfo>) {
    forall i, j :: 0 <= i < j < |bundles| ==> bundles[i].code != bundles[j].code
  }

  lemma {:induction false} FindServiceFinds(services: seq<ServiceInfo>, code: string)
    requires UniqueServices(services)
    ensures FindService(services, code).Some? ==> FindService(services, code).value.code == code
    ensures forall i :: 0 <= i < |services| && services[i].code == code ==> FindService(services, code) == Some(services[i])
    ensures FindService(services, code).Some? ==> FindService(services, code).value in services
  {
    if services != [] {
      FindServiceFinds(services[1..], code);
      forall i | 0 <= i < |services| && services[i].code == code ensures FindService(services, code) == Some(services[i]) {
        if i > 0 {
          assert services[i] == services[1..][i - 1];
        }
      }
    }
  }

  lemma {:induction false} FindBundleFinds(bundles: seq<BundleInfo>, code: string)
    requires UniqueBundles(bundles)
    ensures FindBundle(bundles, code).Some? ==> FindBundle(bundles, code).value.code == code
    ensures forall i :: 0 <= i < |bundles| && bundles[i].code == code ==> FindBundle(bundles, code) == Some(bundles[i])
    ensures FindBundle(bundles, code).Some? ==> FindBundle(bundles, code).value in bundles
  {
    if bundles != [] {
      FindBundleFinds(bundles[1..], code);
      forall i | 0 <= i < |bundles| && bundles[i].code == code ensures FindBundle(bundles, code) == Some(bundles[i]) {
        if i > 0 {
          assert bundles[i] == bundles[1..][i - 1];
        }
      }
    }
  }

  /** And they are shown in the order the durations are sold in. */
  lemma {:induction false} OptionsKeepOrder(prices: map<PriceKey, int>, code: string, durations: seq<int>)
    ensures Map(OptionsOf(prices, code, durations), (o: PriceOption) => o.duration)
         == Filter(durations, (d: int) => ServicePrice(prices, code, d).Some?)
  {
    if durations != [] {
      OptionsKeepOrder(prices, code, durations[..|durations| - 1]);
    }
  }

  /** The catalogue shows every service and every bundle, and a bundle as priced exactly when it is. */
  lemma CatalogShowsAll(services: seq<ServiceInfo>, bundles: seq<BundleInfo>, prices: map<PriceKey, int>)
    ensures var c := CatalogOf(services, bundles, prices);
            && |c.services| == |services| && |c.bundles| == |bundles|
            && (forall i :: 0 <= i < |services| ==> c.services[i].service == services[i])
            && (forall i :: 0 <= i < |bundles| ==>
                  && c.bundles[i].bundle == bundles[i]
                  && (c.bundles[i].priced <==> BundlePrice(prices, bundles[i].code).Some?)
                  && Some(c.bundles[i].amount) == if c.bundles[i].priced then BundlePrice(prices, bundles[i].code) else Some(0))
  {
    forall i | 0 <= i < |services|
      ensures CatalogOf(services, bundles, prices).services[i] == PriceService(prices)(services[i]) {}
    forall i | 0 <= i < |bundles|
      ensures CatalogOf(services, bundles, prices).bundles[i] == PriceBundle(prices)(bundles[i]) {}
  }

  /** The options shown are exactly the sold durations that have a price, at that price. */
  lemma {:induction false} OptionsAreOffers(prices: map<PriceKey, int>, code: string, durations: seq<int>, o: PriceOption)
    ensures o in OptionsOf(prices, code, durations)
       <==> o.duration in durations && ServicePrice(prices, code, o.duration) == Some(o.amount)
  {
    if durations != [] {
      var n := |durations| - 1;
      OptionsAreOffers(prices, code, durations[..n], o);
      assert durations == durations[..n] + [durations[n]];
    }
  }

  ghost predicate Quotes(catalog: Catalog, req: Request, amount: int) {
    if req.bundleCode != "" then
      exists i :: 0 <= i < |catalog.bundles| && catalog.bundles[i].bundle.code == req.bundleCode
                  && catalog.bundles[i].priced && catalog.bundles[i].amount == amount
    else
      req.serviceCode != "" &&
      exists i :: 0 <= i < |catalog.services| && catalog.services[i].service.code == req.serviceCode
                  && PriceOption(req.durationDays, amount) in catalog.services[i].options
  }

  /** For the same region and category, a request can be planned exactly when the catalogue
      quotes it, and at exactly the quoted amount. */
  lemma PlanIsTheQuote(services: seq<ServiceInfo>, bundles: seq<BundleInfo>, prices: map<PriceKey, int>,
                       req: Request, now: Time, amount: int)
    requires UniqueServices(services) && UniqueBundles(bundles)
    ensures var plan := BuildPlan(services, bundles, prices, req, now);
            (plan.Ok? && plan.value.amount == amount) <==> Quotes(CatalogOf(services, bundles, prices), req, amount)
  {
    var catalog := CatalogOf(services, bundles, prices);
    if req.bundleCode != "" {
      FindBundleFinds(bundles, req.bundleCode);
      forall i | 0 <= i < |bundles| ensures catalog.bundles[i] == PriceBundle(prices)(bundles[i]) {}
      if BundlePlan(bundles, req.bundleCode, prices, now).Ok? {
        var i :| 0 <= i < |bundles| && bundles[i] == FindBundle(bundles, req.bundleCode).value;
        assert catalog.bundles[i].bundle.code == req.bundleCode;
      }
    } else if req.serviceCode != "" {
      FindServiceFinds(services, req.serviceCode);
      forall i | 0 <= i < |services|
        ensures catalog.services[i] == PriceService(prices)(services[i])
        ensures PriceOption(req.durationDays, amount) in catalog.services[i].options
           <==> req.durationDays in services[i].durations && ServicePrice(prices, services[i].code, req.durationDays) == Some(amount)
      {
        OptionsAreOffers(prices, services[i].code, services[i].durations, PriceOption(req.durationDays, amount));
      }
      if ServicePlan(services, req.serviceCode, req.durationDays, prices, now).Ok? {
        var i :| 0 <= i < |services| && services[i] == FindService(services, req.serviceCode).value;
        assert catalog.services[i].service.code == req.serviceCode;
      }
    }
  }
}
