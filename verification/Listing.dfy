/**
 Advertisements, the source of truth: their status machine
 (services/listing/internal/domain/ad.go) and every transaction on them
 (services/listing/internal/repo/ad.go). A transaction that returns an error has
 changed nothing.
 */
module Listing {
  import opened Clock
  import opened Collections

  type UserId = nat
  type AdId = nat
  type EventId = nat

  datatype Status = Draft | Pending | Active | Rejected | Sold | Expired | Archived | Blocked

  function Transitions(s: Status): set<Status> {
    match s
    case Draft => {Pending}
    case Pending => {Active, Rejected}
    case Rejected => {Pending}
    case Active => {Sold, Expired, Archived, Pending}
    case Expired => {Active}
    case _ => {}
  }

  predicate CanTransitionTo(from: Status, to: Status) {
    to == Blocked || to in Transitions(from)
  }

  predicate Editable(s: Status) {
    s == Draft || s == Pending || s == Rejected || s == Active
  }

  datatype AttributeValue = AttributeValue(slug: string, value: string)

  datatype AdImage = AdImage(mediaId: nat, sortOrder: int, isCover: bool)

  datatype Ad = Ad(
    userId: UserId,
    categoryId: string,
    title: string,
    description: string,
    price: int,
    currency: string,
    regionId: int,
    cityId: Option<int>,
    lat: Option<real>,
    lng: Option<real>,
    status: Status,
    phoneDisplay: bool,
    publishedAt: Option<Time>,
    expiresAt: Option<Time>,
    bumpedAt: Option<Time>,
    isTop: bool,
    promotionRank: int,
    promoEndsAt: Option<Time>,
    views: int,
    createdAt: Time,
    attributes: seq<AttributeValue>,
    images: seq<AdImage>)

  datatype Subject =
    | AdCreated | AdUpdated | AdDeleted | AdApproved | AdRejected | AdBlocked | AdSold | AdExpired | AdBumped

  datatype AdEvent = AdEvent(subject: Subject, adId: AdId, status: Status, title: string)

  datatype StatusUpdate = StatusUpdate(from: Status, to: Status, publishedAt: Option<Time>, expiresAt: Option<Time>)

  datatype Error = AdNotFound | InvalidTransition | ConstraintViolation

  datatype Db = Db(ads: map<AdId, Ad>, processed: set<EventId>, outbox: seq<AdEvent>)

  const EMPTY: Db := Db(map[], {}, [])

  /** The writes the repository offers, with everything their callers pass. */
  datatype Write =
    | Create(id: AdId, ad: Ad, ev: AdEvent)
    | Transition(id: AdId, upd: StatusUpdate, ev: AdEvent)
    | ApplyModeration(event: EventId, id: AdId, upd: StatusUpdate, ev: AdEvent)
    | MarkProcessed(event: EventId)
    | Expire(id: AdId, now: Time, ev: AdEvent)
    | Bump(id: AdId, at: Time, ev: AdEvent)
    | SetPromotion(id: AdId, rank: int, endsAt: Option<Time>, ev: AdEvent)
    | ClearPromotion(id: AdId, now: Time, ev: AdEvent)
    | AddViews(counts: map<AdId, int>)
    | Update(id: AdId, ad: Ad, ev: AdEvent)
    | Delete(id: AdId, ev: AdEvent)

  /** The child tables' keys and the table's own checks. */
  predicate Storable(a: Ad) {
    && 0 <= a.price
    && (forall i, j :: 0 <= i < j < |a.attributes| ==> a.attributes[i].slug != a.attributes[j].slug)
    && (forall i, j :: 0 <= i < j < |a.images| ==> a.images[i].mediaId != a.images[j].mediaId)
    && (forall i, j :: 0 <= i < j < |a.images| ==> !(a.images[i].isCover && a.images[j].isCover))
  }

  /** Missing timestamps keep what is there. */
  function Coalesce<T>(x: Option<T>, y: Option<T>): Option<T> {
    if x.Some? then x else y
  }

  predicate InStatus(db: Db, id: AdId, s: Status) {
    id in db.ads && db.ads[id].status == s
  }

  predicate ExpiryDue(a: Ad, now: Time) {
    a.status.Active? && a.expiresAt.Some? && a.expiresAt.value <= now
  }

  predicate PromoOver(a: Ad, now: Time) {
    a.isTop && a.promoEndsAt.Some? && a.promoEndsAt.value <= now
  }

  /** A row as it is first inserted: promotion columns take their defaults. */
  function Inserted(a: Ad): Ad {
    a.(isTop := false, promotionRank := 0, promoEndsAt := None)
  }

  function Transitioned(a: Ad, upd: StatusUpdate): Ad {
    a.(status := upd.to,
       publishedAt := Coalesce(upd.publishedAt, a.publishedAt),
       expiresAt := Coalesce(upd.expiresAt, a.expiresAt))
  }

  /** An edit takes over the editable columns and the status, and keeps the rest of the row. */
  function Edited(row: Ad, a: Ad): Ad {
    row.(categoryId := a.categoryId, title := a.title, description := a.description, price := a.price,
         currency := a.currency, regionId := a.regionId, cityId := a.cityId, lat := a.lat, lng := a.lng,
         status := a.status, phoneDisplay := a.phoneDisplay, attributes := a.attributes, images := a.images)
  }

  function Put(db: Db, id: AdId, a: Ad, ev: AdEvent): Db {
    db.(ads := db.ads[id := a], outbox := db.outbox + [ev])
  }

  function Viewed(ads: map<AdId, Ad>, counts: map<AdId, int>): map<AdId, Ad> {
    map id | id in ads :: if id in counts then ads[id].(views := ads[id].views + counts[id]) else ads[id]
  }

  function Perform(db: Db, w: Write): Result<Db, Error> {
    match w
    case Create(id, a, ev) =>
      if id in db.ads || !Storable(a) then Err(ConstraintViolation) else Ok(Put(db, id, Inserted(a), ev))
    case Transition(id, upd, ev) =>
      if !InStatus(db, id, upd.from) then Err(InvalidTransition) else Ok(Put(db, id, Transitioned(db.ads[id], upd), ev))
    case ApplyModeration(event, id, upd, ev) =>
      var moved := if InStatus(db, id, upd.from) then Put(db, id, Transitioned(db.ads[id], upd), ev) else db;
      Ok(moved.(processed := moved.processed + {event}))
    case MarkProcessed(event) =>
      Ok(db.(processed := db.processed + {event}))
    case Expire(id, now, ev) =>
      if id in db.ads && ExpiryDue(db.ads[id], now) then Ok(Put(db, id, db.ads[id].(status := Expired), ev)) else Ok(db)
    case Bump(id, at, ev) =>
      if InStatus(db, id, Active) then Ok(Put(db, id, db.ads[id].(bumpedAt := Some(at)), ev)) else Ok(db)
    case SetPromotion(id, rank, endsAt, ev) =>
      if InStatus(db, id, Active)
      then Ok(Put(db, id, db.ads[id].(isTop := true, promotionRank := rank, promoEndsAt := endsAt), ev)) else Ok(db)
    case ClearPromotion(id, now, ev) =>
      if id in db.ads && PromoOver(db.ads[id], now)
      then Ok(Put(db, id, db.ads[id].(isTop := false, promotionRank := 0, promoEndsAt := None), ev)) else Ok(db)
    case AddViews(counts) =>
      Ok(db.(ads := Viewed(db.ads, counts)))
    case Update(id, a, ev) =>
      if id !in db.ads then Err(AdNotFound)
      else if !Storable(a) then Err(ConstraintViolation)
      else Ok(Put(db, id, Edited(db.ads[id], a), ev))
    case Delete(id, ev) =>
      if id !in db.ads then Err(AdNotFound) else Ok(db.(ads := db.ads - {id}, outbox := db.outbox + [ev]))
  }

  /** What a read of one ad returns. */
  function GetByID(db: Db, id: AdId): Result<Ad, Error> {
    if id in db.ads then Ok(db.ads[id]) else Err(AdNotFound)
  }

  /* The repository, updating its tables in place */

  class AdRepo {
    var ads: map<AdId, Ad>
    var processed: set<EventId>
    var outbox: seq<AdEvent>

    ghost function Tables(): Db
      reads this
    {
      Db(ads, processed, outbox)
    }

    constructor ()
      ensures Tables() == EMPTY
    {
      ads, processed, outbox := map[], {}, [];
    }

    method CreateWithEvent(id: AdId, a: Ad, ev: AdEvent) returns (r: Result<(), Error>)
      modifies this
      ensures match Perform(old(Tables()), Create(id, a, ev))
              case Err(e) => r == Err(e) && Tables() == old(Tables())
              case Ok(db) => r.Ok? && Tables() == db
    {
      if id in ads || !Storable(a) {
        return Err(ConstraintViolation);
      }
      ads := ads[id := a.(isTop := false, promotionRank := 0, promoEndsAt := None)];
      outbox := outbox + [ev];
      r := Ok(());
    }

    /** Moves an ad on only if it is still where the caller saw it; says how many rows moved. */
    method ExecTransition(id: AdId, upd: StatusUpdate) returns (n: nat)
      modifies this`ads
      ensures n == if InStatus(old(Tables()), id, upd.from) then 1 else 0
      ensures ads == if n == 1 then old(ads)[id := Transitioned(old(ads)[id], upd)] else old(ads)
    {
      if id !in ads || ads[id].status != upd.from {
        return 0;
      }
      var a := ads[id].(status := upd.to);
      if upd.publishedAt.Some? {
        a := a.(publishedAt := upd.publishedAt);
      }
      if upd.expiresAt.Some? {
        a := a.(expiresAt := upd.expiresAt);
      }
      ads := ads[id := a];
      n := 1;
    }

    method TransitionWithEvent(id: AdId, upd: StatusUpdate, ev: AdEvent) returns (r: Result<(), Error>)
      modifies this
      ensures match Perform(old(Tables()), Transition(id, upd, ev))
              case Err(e) => r == Err(e) && Tables() == old(Tables())
              case Ok(db) => r.Ok? && Tables() == db
    {
      var n := ExecTransition(id, upd);
      if n == 0 {
        return Err(InvalidTransition);
      }
      outbox := outbox + [ev];
      r := Ok(());
    }

    method ApplyModerationWithEvent(event: EventId, id: AdId, upd: StatusUpdate, ev: AdEvent)
      modifies this
      ensures Ok(Tables()) == Perform(old(Tables()), ApplyModeration(event, id, upd, ev))
    {
      var n := ExecTransition(id, upd);
      if n > 0 {
        outbox := outbox + [ev];
      }
      MarkEventProcessed(event);
    }

    method IsEventProcessed(event: EventId) returns (yes: bool)
      ensures yes <==> event in processed
    {
      yes := event in processed;
    }

    method MarkEventProcessed(event: EventId)
      modifies this`processed
      ensures processed == old(processed) + {event}
    {
      processed := processed + {event};
    }

    method ExpireWithEvent(id: AdId, now: Time, ev: AdEvent) returns (expired: bool)
      modifies this
      ensures Ok(Tables()) == Perform(old(Tables()), Write.Expire(id, now, ev))
      ensures expired == (id in old(ads) && ExpiryDue(old(ads)[id], now))
    {
      expired := id in ads && ExpiryDue(ads[id], now);
      if expired {
        ads := ads[id := ads[id].(status := Expired)];
        outbox := outbox + [ev];
      }
    }

    method BumpWithEvent(id: AdId, at: Time, ev: AdEvent) returns (bumped: bool)
      modifies this
      ensures Ok(Tables()) == Perform(old(Tables()), Bump(id, at, ev))
      ensures bumped == InStatus(old(Tables()), id, Active)
    {
      bumped := id in ads && ads[id].status.Active?;
      if bumped {
        ads := ads[id := ads[id].(bumpedAt := Some(at))];
        outbox := outbox + [ev];
      }
    }

    method SetPromotionWithEvent(id: AdId, rank: int, endsAt: Option<Time>, ev: AdEvent) returns (applied: bool)
      modifies this
      ensures Ok(Tables()) == Perform(old(Tables()), SetPromotion(id, rank, endsAt, ev))
      ensures applied == InStatus(old(Tables()), id, Active)
    {
      applied := id in ads && ads[id].status.Active?;
      if applied {
        ads := ads[id := ads[id].(isTop := true, promotionRank := rank, promoEndsAt := endsAt)];
        outbox := outbox + [ev];
      }
    }

    method ClearPromotionWithEvent(id: AdId, now: Time, ev: AdEvent) returns (cleared: bool)
      modifies this
      ensures Ok(Tables()) == Perform(old(Tables()), ClearPromotion(id, now, ev))
      ensures cleared == (id in old(ads) && PromoOver(old(ads)[id], now))
    {
      cleared := id in ads && PromoOver(ads[id], now);
      if cleared {
        ads := ads[id := ads[id].(isTop := false, promotionRank := 0, promoEndsAt := None)];
        outbox := outbox + [ev];
      }
    }

    /** One batch update; deltas of zero are not sent, and ads that are gone match nothing. */
    method AddViews(counts: map<AdId, int>)
      modifies this`ads
      ensures Ok(Tables()) == Perform(old(Tables()), Write.AddViews(counts))
    {
      var deltas: map<AdId, int> := map[];
      var keys := counts.Keys;
      while keys != {}
        invariant keys <= counts.Keys
        invariant deltas == map id | id in counts && id !in keys && counts[id] != 0 :: counts[id]
        decreases keys
      {
        var id :| id in keys;
        if counts[id] != 0 {
          deltas := deltas[id := counts[id]];
        }
        keys := keys - {id};
      }
      if deltas == map[] {
        assert forall id :: id in counts ==> id !in deltas;
        assert ads == Viewed(ads, counts);
        return;
      }
      ads := Viewed(ads, deltas);
      assert ads == Viewed(old(ads), counts);
    }

    method UpdateWithEvent(id: AdId, a: Ad, ev: AdEvent) returns (r: Result<(), Error>)
      modifies this
      ensures match Perform(old(Tables()), Update(id, a, ev))
              case Err(e) => r == Err(e) && Tables() == old(Tables())
              case Ok(db) => r.Ok? && Tables() == db
    {
      if id !in ads {
        return Err(AdNotFound);
      }
      if !Storable(a) {
        return Err(ConstraintViolation);
      }
      ads := ads[id := Edited(ads[id], a)];
      outbox := outbox + [ev];
      r := Ok(());
    }

    method DeleteWithEvent(id: AdId, ev: AdEvent) returns (r: Result<(), Error>)
      modifies this
      ensures match Perform(old(Tables()), Delete(id, ev))
              case Err(e) => r == Err(e) && Tables() == old(Tables())
              case Ok(db) => r.Ok? && Tables() == db
    {
      if id !in ads {
        return Err(AdNotFound);
      }
      ads := ads - {id};
      outbox := outbox + [ev];
      r := Ok(());
    }
  }
}
