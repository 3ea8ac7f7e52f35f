/**
 What a reader of an ad finds after each action of its owner, of moderators and of workers,
 column by column, and which event tells the others (services/listing/internal/app/service.go:190-420,
 services/listing/internal/repo/ad.go:38-381, services/listing/internal/worker).
 */
module AdReads {
  import opened Clock
  import opened Collections
  import opened Listing
  import opened AdValidation
  import opened ListingService
  import opened Expiry

  /** Nothing about other ads changes. */
  ghost predicate OthersStay(db: Db, db': Db, id: AdId) {
    forall other :: other != id ==> (other in db'.ads <==> other in db.ads) && (other in db.ads ==> db'.ads[other] == db.ads[other])
  }

  /** One event tells what the ad is now. */
  ghost predicate Reported(db: Db, db': Db, id: AdId, subject: Subject)
    requires id in db'.ads
  {
    db'.outbox == db.outbox + [AdEvent(subject, id, db'.ads[id].status, db'.ads[id].title)]
  }

  /* Edits */

  ghost predicate Takes<T(!new)>(given: Option<T>, before: T, after: T) {
    after == if given.Some? then given.value else before
  }

  ghost predicate TakesOptional<T(!new)>(given: Option<T>, before: Option<T>, after: Option<T>) {
    after == if given.Some? then given else before
  }

  /** A moderator must look again. */
  ghost predicate JudgedAnew(a: Ad, b: Ad, input: UpdateInput) {
    || b.title != a.title || b.description != a.description || b.price != a.price || b.categoryId != a.categoryId
    || input.attributes.Some? || input.images.Some?
  }

  /** An edit stores exactly what was given and keeps the rest; it sends an ad on show back to
      moderation when a moderator must look again. */
  lemma EditIsStored(db: Db, id: AdId, user: UserId, input: UpdateInput, answer: CatalogAnswer, isFloat: string -> bool, ttl: int)
    requires id in db.ads
    requires var plan := OwnerPlan(Edit(input, answer, isFloat), id, user, db.ads[id], ttl);
             plan.Ok? && Perform(db, plan.value).Ok?
    ensures var db' := Perform(db, OwnerPlan(Edit(input, answer, isFloat), id, user, db.ads[id], ttl).value).value;
            && id in db'.ads && OthersStay(db, db', id) && Reported(db, db', id, AdUpdated) && db'.processed == db.processed
            && var a, b := db.ads[id], db'.ads[id];
               && a.userId == user
               && Takes(input.title, a.title, b.title) && Takes(input.description, a.description, b.description)
               && Takes(input.price, a.price, b.price) && Takes(input.currency, a.currency, b.currency)
               && Takes(input.categoryId, a.categoryId, b.categoryId) && Takes(input.regionId, a.regionId, b.regionId)
               && TakesOptional(input.cityId, a.cityId, b.cityId)
               && TakesOptional(input.lat, a.lat, b.lat) && TakesOptional(input.lng, a.lng, b.lng)
               && Takes(input.phoneDisplay, a.phoneDisplay, b.phoneDisplay)
               && Takes(input.attributes, a.attributes, b.attributes) && Takes(input.images, a.images, b.images)
               && b.status == (if a.status == Active && JudgedAnew(a, b, input) then Pending else a.status)
               && (b.userId, b.publishedAt, b.expiresAt, b.bumpedAt) == (a.userId, a.publishedAt, a.expiresAt, a.bumpedAt)
               && (b.isTop, b.promotionRank, b.promoEndsAt) == (a.isTop, a.promotionRank, a.promoEndsAt)
               && (b.views, b.createdAt) == (a.views, a.createdAt)
  {
    hide Objection;
    hide Storable;
  }

  /** Who may edit, and what may be stored: every limit in one place. */
  lemma EditAllowedIff(id: AdId, user: UserId, a: Ad, input: UpdateInput, specs: seq<AttrSpec>, isFloat: string -> bool, ttl: int)
    ensures var b := Patched(a, input);
            OwnerPlan(Edit(input, Attributes(specs), isFloat), id, user, a, ttl).Ok? <==>
              && a.userId == user && a.status in {Draft, Pending, Rejected, Active}
              && 1 <= Utf8Length(b.title) <= 120 && 0 <= b.price && b.categoryId != "" && b.regionId != 0
              && |b.images| <= 10
              && (forall i, j :: 0 <= i < j < |b.images| ==> !b.images[i].isCover || !b.images[j].isCover)
              && Fits(specs, b.attributes, isFloat)
  {
    var b := Patched(a, input);
    Utf8Bounds(b.title);
    AcceptedIffFits(specs, b.attributes, isFloat);
    hide Fits;
    hide AttributesFlaw;
    hide Utf8Length;
    hide Patched;
  }

  /** Why an edit is refused: strangers are told so before anything else, then that the ad is past
      editing, and of the faults of the edited ad those of its own fields come before its images', and
      these before what the catalog says. */
  lemma EditRefusedBecause(id: AdId, user: UserId, a: Ad, input: UpdateInput, answer: CatalogAnswer, isFloat: string -> bool, ttl: int)
    ensures var b, plan := Patched(a, input), OwnerPlan(Edit(input, answer, isFloat), id, user, a, ttl);
            && (plan == Err(Forbidden) <==> a.userId != user)
            && (plan == Err(NotEditable) <==> a.userId == user && a.status in {Sold, Archived, Expired, Blocked})
            && (a.userId == user && a.status in {Draft, Pending, Rejected, Active} ==>
                  && (CoreFlaw(b).Some? ==> plan == Err(Invalid(CoreFlaw(b).value)))
                  && (CoreFlaw(b).None? && ImagesFlaw(b.images).Some? ==> plan == Err(Invalid(ImagesFlaw(b.images).value)))
                  && (CoreFlaw(b).None? && ImagesFlaw(b.images).None? ==>
                        && (answer == NoSuchCategory ==> plan == Err(CategoryNotFound))
                        && (answer == NoAnswer ==> plan == Err(CatalogFails))
                        && (answer.Attributes? && AttributesFlaw(answer.specs, b.attributes, isFloat).Some? ==>
                              plan == Err(Invalid(AttributesFlaw(answer.specs, b.attributes, isFloat).value)))))
  {
    hide Patched;
    hide CoreFlaw;
    hide ImagesFlaw;
    hide AttributesFlaw;
  }

  /* Actions on the status */

  /** What an owner's action makes of an ad. */
  ghost predicate BecomesBy(op: OwnerOp, a: Ad, b: Ad, ttl: int) {
    match op
    case Submit => a.status in {Draft, Rejected, Active} && b == a.(status := Pending)
    case MarkSold => a.status == Active && b == a.(status := Sold)
    case Archive => a.status == Active && b == a.(status := Archived)
    case Renew(now) => a.status in {Active, Expired} && b == a.(status := Active, expiresAt := Some(now + ttl))
    case _ => false
  }

  ghost predicate OwnerMay(op: OwnerOp, s: Status) {
    match op
    case Submit => s in {Draft, Rejected, Active}
    case MarkSold => s == Active
    case Archive => s == Active
    case Renew(_) => s in {Active, Expired}
    case _ => false
  }

  lemma StatusActionIsStored(db: Db, id: AdId, user: UserId, op: OwnerOp, ttl: int)
    requires id in db.ads && !op.Edit? && !op.Remove?
    ensures var a, plan := db.ads[id], OwnerPlan(op, id, user, db.ads[id], ttl);
            && (plan.Ok? <==> a.userId == user && OwnerMay(op, a.status))
            && (a.userId != user ==> plan == Err(Forbidden))
            && (a.userId == user && plan.Err? ==> plan == Err(Refused(InvalidTransition)))
            && (plan.Ok? ==>
                  && Perform(db, plan.value).Ok?
                  && var db' := Perform(db, plan.value).value;
                     && id in db'.ads && OthersStay(db, db', id) && BecomesBy(op, a, db'.ads[id], ttl)
                     && Reported(db, db', id, if op.MarkSold? then AdSold else AdUpdated) && db'.processed == db.processed)
  {
  }

  lemma RemovalIsStored(db: Db, id: AdId, user: UserId, ttl: int)
    requires id in db.ads
    ensures var plan := OwnerPlan(Remove, id, user, db.ads[id], ttl);
            if db.ads[id].userId != user then plan == Err(Forbidden) else
              && plan.Ok? && Perform(db, plan.value).Ok?
              && var a, db' := db.ads[id], Perform(db, plan.value).value;
                 && id !in db'.ads && OthersStay(db, db', id) && db'.processed == db.processed
                 && db'.outbox == db.outbox + [AdEvent(AdDeleted, id, a.status, a.title)]
  {
  }

  /** What a moderator's decision makes of an ad it applies to. */
  ghost predicate JudgedBy(d: Decision, a: Ad, b: Ad, now: Time, ttl: int) {
    match d
    case Approve => b == a.(status := Active, publishedAt := Some(now), expiresAt := Some(now + ttl))
    case Reject => b == a.(status := Rejected)
    case Block => b == a.(status := Blocked)
  }

  ghost predicate Applies(d: Decision, s: Status) {
    if d.Block? then s != Blocked else s == Pending
  }

  lemma DecisionIsStored(db: Db, d: Decision, event: EventId, id: AdId, now: Time, ttl: int)
    ensures var r := Perform(db, ModerationWrite(d, event, id, GetByID(db, id), now, ttl));
            && r.Ok? && r.value.processed == db.processed + {event}
            && if id in db.ads && Applies(d, db.ads[id].status) then
                 && id in r.value.ads && OthersStay(db, r.value, id)
                 && JudgedBy(d, db.ads[id], r.value.ads[id], now, ttl) && Reported(db, r.value, id, AdUpdated)
               else r.value.ads == db.ads && r.value.outbox == db.outbox
  {
  }

  /** An ad approved or renewed at `now` stays on show for the whole term and no longer: an expiry
      sweep takes it down exactly from the end of the term on. */
  lemma ShownForTheTerm(a: Ad, b: Ad, now: Time, ttl: int, id: AdId, db: Db, t: Time)
    requires JudgedBy(Approve, a, b, now, ttl) || BecomesBy(Renew(now), a, b, ttl)
    requires id in db.ads && db.ads[id] == b
    ensures var r := Perform(db, Expire(id, t, Report(Kind.Ads, id, b)));
            && r.Ok?
            && if now + ttl <= t then
                 && id in r.value.ads && r.value.ads[id] == b.(status := Expired) && OthersStay(db, r.value, id)
                 && Reported(db, r.value, id, AdExpired)
               else r.value == db
  {
  }

  /* Paid promotion */

  /** A promotion puts an ad on show at the top until its end, or for good if it has none: a sweep
      takes it down exactly from then on, and leaves no trace of it. */
  lemma PromotedUntilItsEnd(db: Db, id: AdId, rank: int, endsAt: Option<Time>, ev: AdEvent, t: Time)
    requires id in db.ads && db.ads[id].status == Active
    ensures var top := Perform(db, SetPromotion(id, rank, endsAt, ev));
            && top.Ok? && id in top.value.ads && OthersStay(db, top.value, id) && top.value.outbox == db.outbox + [ev]
            && var a, b := db.ads[id], top.value.ads[id];
               && b.isTop && b.promotionRank == rank && b.promoEndsAt == endsAt
               && b == a.(isTop := b.isTop, promotionRank := b.promotionRank, promoEndsAt := b.promoEndsAt)
               && var r := Perform(top.value, ClearPromotion(id, t, Report(Promotions, id, b)));
                  && r.Ok?
                  && if endsAt.Some? && endsAt.value <= t then
                       && id in r.value.ads && OthersStay(db, r.value, id) && Reported(top.value, r.value, id, AdUpdated)
                       && r.value.ads[id] == a.(isTop := false, promotionRank := 0, promoEndsAt := None)
                     else r.value == top.value
  {
  }

  /** An ad that is not on show is neither promoted nor bumped. */
  lemma HiddenAdsStay(db: Db, id: AdId, rank: int, endsAt: Option<Time>, at: Time, ev: AdEvent)
    requires id in db.ads ==> db.ads[id].status != Active
    ensures Perform(db, SetPromotion(id, rank, endsAt, ev)) == Ok(db)
    ensures Perform(db, Bump(id, at, ev)) == Ok(db)
  {
  }

  /* Creation, bumps and views */

  lemma CreationIsStored(db: Db, id: AdId, a: Ad, ev: AdEvent)
    requires Perform(db, Create(id, a, ev)).Ok?
    ensures id !in db.ads && 0 <= a.price
    ensures var db' := Perform(db, Create(id, a, ev)).value;
            && id in db'.ads && OthersStay(db, db', id) && db'.outbox == db.outbox + [ev]
            && var b := db'.ads[id];
               && !b.isTop && b.promotionRank == 0 && b.promoEndsAt == None
               && b == a.(isTop := b.isTop, promotionRank := b.promotionRank, promoEndsAt := b.promoEndsAt)
  {
  }

  lemma BumpIsStored(db: Db, id: AdId, at: Time, ev: AdEvent)
    requires id in db.ads && db.ads[id].status == Active
    ensures var r := Perform(db, Bump(id, at, ev));
            && r.Ok? && id in r.value.ads && OthersStay(db, r.value, id) && r.value.outbox == db.outbox + [ev]
            && r.value.ads[id].bumpedAt == Some(at) && r.value.ads[id] == db.ads[id].(bumpedAt := r.value.ads[id].bumpedAt)
  {
  }

  lemma ViewsAreStored(db: Db, counts: map<AdId, int>, id: AdId)
    ensures var r := Perform(db, AddViews(counts));
            && r.Ok? && r.value.outbox == db.outbox && r.value.processed == db.processed
            && (id in r.value.ads <==> id in db.ads)
            && (id in db.ads ==>
                  && r.value.ads[id].views == db.ads[id].views + (if id in counts then counts[id] else 0)
                  && r.value.ads[id] == db.ads[id].(views := r.value.ads[id].views))
  {
  }

  /* Refused writes */

  /** The tables' own checks: a negative price, an attribute or a picture twice, two covers. */
  ghost predicate Unstorable(a: Ad) {
    || a.price < 0
    || (exists i, j :: 0 <= i < j < |a.attributes| && a.attributes[i].slug == a.attributes[j].slug)
    || (exists i, j :: 0 <= i < j < |a.images| && a.images[i].mediaId == a.images[j].mediaId)
    || (exists i, j :: 0 <= i < j < |a.images| && a.images[i].isCover && a.images[j].isCover)
  }

  /** The writes that can be refused, and why; the others never are. */
  lemma WritesFailBecause(db: Db, w: Write)
    ensures Perform(db, w) ==
              match w
              case Create(id, a, _) => if id in db.ads || Unstorable(a) then Err(ConstraintViolation) else Perform(db, w)
              case Update(id, a, _) =>
                if id !in db.ads then Err(AdNotFound) else if Unstorable(a) then Err(ConstraintViolation) else Perform(db, w)
              case Transition(id, upd, _) =>
                if id in db.ads && db.ads[id].status == upd.from then Perform(db, w) else Err(InvalidTransition)
              case Delete(id, _) => if id !in db.ads then Err(AdNotFound) else Perform(db, w)
              case _ => Perform(db, w)
    ensures Perform(db, w).Err? <==>
              match w
              case Create(id, a, _) => id in db.ads || Unstorable(a)
              case Update(id, a, _) => id !in db.ads || Unstorable(a)
              case Transition(id, upd, _) => !(id in db.ads && db.ads[id].status == upd.from)
              case Delete(id, _) => id !in db.ads
              case _ => false
  {
  }
}
