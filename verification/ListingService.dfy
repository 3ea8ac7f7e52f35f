/**
 What the listing service decides from an ad it has read: the owner's actions
 (services/listing/internal/app/service.go) and the workers' (services/listing/internal/worker).
 */
module ListingService {
  import opened Clock
  import opened Collections
  import opened Listing
  import opened AdValidation

  datatype AppError =
    | Missing | Forbidden | NotEditable
    | Invalid(flaw: Flaw) | CategoryNotFound | CatalogFails
    | Refused(error: Error)

  /** What the catalogue answers for a category: its attributes, or that there is none; or nothing. */
  datatype CatalogAnswer = Attributes(specs: seq<AttrSpec>) | NoSuchCategory | NoAnswer

  datatype UpdateInput = UpdateInput(
    title: Option<string>,
    description: Option<string>,
    price: Option<int>,
    currency: Option<string>,
    categoryId: Option<string>,
    regionId: Option<int>,
    cityId: Option<int>,
    lat: Option<real>,
    lng: Option<real>,
    phoneDisplay: Option<bool>,
    attributes: Option<seq<AttributeValue>>,
    images: Option<seq<AdImage>>)

  /** `answer` is the catalogue's for the edited ad's category. */
  datatype OwnerOp =
    | Submit | MarkSold | Archive | Renew(now: Time) | Remove
    | Edit(input: UpdateInput, answer: CatalogAnswer, isFloat: string -> bool)

  function NewAdEvent(subject: Subject, id: AdId, a: Ad): AdEvent {
    AdEvent(subject, id, a.status, a.title)
  }

  function Or<T>(x: Option<T>, y: T): T {
    if x.Some? then x.value else y
  }

  /* Edits */

  function Patched(a: Ad, input: UpdateInput): Ad {
    a.(title := Or(input.title, a.title),
       description := Or(input.description, a.description),
       price := Or(input.price, a.price),
       categoryId := Or(input.categoryId, a.categoryId),
       attributes := Or(input.attributes, a.attributes),
       images := Or(input.images, a.images),
       currency := Or(input.currency, a.currency),
       regionId := Or(input.regionId, a.regionId),
       cityId := Coalesce(input.cityId, a.cityId),
       lat := Coalesce(input.lat, a.lat),
       lng := Coalesce(input.lng, a.lng),
       phoneDisplay := Or(input.phoneDisplay, a.phoneDisplay))
  }

  /** A moderator would have to look again: a key field differs, or a list was supplied at all. */
  predicate KeyChanged(a: Ad, input: UpdateInput) {
    || Or(input.title, a.title) != a.title
    || Or(input.description, a.description) != a.description
    || Or(input.price, a.price) != a.price
    || Or(input.categoryId, a.categoryId) != a.categoryId
    || input.attributes.Some? || input.images.Some?
  }

  /** The edit as the source makes it, field by field: first the fields a moderator judges. */
  method ApplyKeyFields(a: Ad, input: UpdateInput) returns (edited: Ad, keyChanged: bool)
    ensures edited == a.(title := Or(input.title, a.title), description := Or(input.description, a.description),
                         price := Or(input.price, a.price), categoryId := Or(input.categoryId, a.categoryId))
    ensures keyChanged <==> edited != a
  {
    edited, keyChanged := a, false;
    if input.title.Some? && input.title.value != a.title {
      edited, keyChanged := edited.(title := input.title.value), true;
    }
    if input.description.Some? && input.description.value != a.description {
      edited, keyChanged := edited.(description := input.description.value), true;
    }
    if input.price.Some? && input.price.value != a.price {
      edited, keyChanged := edited.(price := input.price.value), true;
    }
    if input.categoryId.Some? && input.categoryId.value != a.categoryId {
      edited, keyChanged := edited.(categoryId := input.categoryId.value), true;
    }
  }

  method ApplyUpdate(a: Ad, input: UpdateInput) returns (edited: Ad, keyChanged: bool)
    ensures edited == Patched(a, input) && keyChanged == KeyChanged(a, input)
  {
    edited, keyChanged := ApplyKeyFields(a, input);
    if input.attributes.Some? {
      edited, keyChanged := edited.(attributes := input.attributes.value), true;
    }
    if input.images.Some? {
      edited, keyChanged := edited.(images := input.images.value), true;
    }
    assert keyChanged == KeyChanged(a, input);
    var cityId, lat, lng := a.cityId, a.lat, a.lng;
    if input.cityId.Some? {
      cityId := input.cityId;
    }
    if input.lat.Some? {
      lat := input.lat;
    }
    if input.lng.Some? {
      lng := input.lng;
    }
    edited := edited.(currency := Or(input.currency, a.currency), regionId := Or(input.regionId, a.regionId),
                      cityId := cityId, lat := lat, lng := lng, phoneDisplay := Or(input.phoneDisplay, a.phoneDisplay));
  }

  /** The edited ad as it is written: an active ad with a key change goes back to moderation. */
  function AfterEdit(a: Ad, input: UpdateInput): Ad {
    var edited := Patched(a, input);
    if KeyChanged(a, input) && a.status == Active then edited.(status := Pending) else edited
  }

  /** An active ad stays on show after an edit exactly when nothing a moderator judges changed. */
  lemma UnmoderatedEditsKeepKeys(a: Ad, input: UpdateInput)
    requires a.status == Active
    ensures AfterEdit(a, input).status == Active || AfterEdit(a, input).status == Pending
    ensures AfterEdit(a, input).status == Active ==>
              var b := AfterEdit(a, input);
              && b.title == a.title && b.description == a.description && b.price == a.price
              && b.categoryId == a.categoryId && b.attributes == a.attributes && b.images == a.images
    ensures AfterEdit(a, input).status == Pending ==>
              var b := AfterEdit(a, input);
              || (b.title, b.description, b.price, b.categoryId) != (a.title, a.description, a.price, a.categoryId)
              || input.attributes.Some? || input.images.Some?
  {
  }

  /** Why an ad may not be stored, in the order the checks are made. */
  function Objection(a: Ad, answer: CatalogAnswer, isFloat: string -> bool): Option<AppError> {
    if CoreFlaw(a).Some? then Some(Invalid(CoreFlaw(a).value))
    else if ImagesFlaw(a.images).Some? then Some(Invalid(ImagesFlaw(a.images).value))
    else
      match answer
      case NoSuchCategory => Some(CategoryNotFound)
      case NoAnswer => Some(CatalogFails)
      case Attributes(specs) =>
        match AttributesFlaw(specs, a.attributes, isFloat)
        case Some(flaw) => Some(Invalid(flaw))
        case None => None
  }

  /* Plans */

  function StatusPlan(op: OwnerOp, a: Ad, ttl: int): Result<(StatusUpdate, Subject), AppError> {
    match op
    case Submit =>
      if CanTransitionTo(a.status, Pending) then Ok((StatusUpdate(a.status, Pending, None, None), AdUpdated))
      else Err(Refused(InvalidTransition))
    case MarkSold =>
      if CanTransitionTo(a.status, Sold) then Ok((StatusUpdate(a.status, Sold, None, None), AdSold))
      else Err(Refused(InvalidTransition))
    case Archive =>
      if CanTransitionTo(a.status, Archived) then Ok((StatusUpdate(a.status, Archived, None, None), AdUpdated))
      else Err(Refused(InvalidTransition))
    case Renew(now) =>
      if a.status == Active || a.status == Expired
      then Ok((StatusUpdate(a.status, Active, None, Some(now + ttl)), AdUpdated))
      else Err(Refused(InvalidTransition))
    case _ => Err(Refused(InvalidTransition))
  }

  /** What an owner's action writes, given the ad it read. */
  function OwnerPlan(op: OwnerOp, id: AdId, user: UserId, a: Ad, ttl: int): Result<Write, AppError> {
    if a.userId != user then Err(Forbidden) else
    match op
    case Edit(input, answer, isFloat) =>
      if !Editable(a.status) then Err(NotEditable) else
      var objection := Objection(Patched(a, input), answer, isFloat);
      if objection.Some? then Err(objection.value)
      else Ok(Update(id, AfterEdit(a, input), NewAdEvent(AdUpdated, id, AfterEdit(a, input))))
    case Remove => Ok(Delete(id, NewAdEvent(AdDeleted, id, a)))
    case _ =>
      match StatusPlan(op, a, ttl)
      case Err(e) => Err(e)
      case Ok((upd, subject)) => Ok(Transition(id, upd, NewAdEvent(subject, id, Transitioned(a, upd))))
  }

  /** The code lets an owner withdraw an active ad to moderation too, not only a draft or a rejected one. */
  lemma SubmitAllowedIff(a: Ad, ttl: int)
    ensures StatusPlan(Submit, a, ttl).Ok? <==> a.status == Draft || a.status == Rejected || a.status == Active
  {
  }

  datatype Decision = Approve | Reject | Block

  /** What a moderation decision does to an ad in a given status; nothing when it is out of place. */
  function ModerationPlan(d: Decision, current: Status, now: Time, ttl: int): Option<StatusUpdate> {
    match d
    case Approve => if current != Pending then None else Some(StatusUpdate(Pending, Active, Some(now), Some(now + ttl)))
    case Reject => if current != Pending then None else Some(StatusUpdate(Pending, Rejected, None, None))
    case Block => if current == Blocked then None else Some(StatusUpdate(current, Blocked, None, None))
  }

  /** The write a moderator makes after reading the ad, or finding none. */
  function ModerationWrite(d: Decision, event: EventId, id: AdId, found: Result<Ad, Error>, now: Time, ttl: int): Write {
    if found.Err? then MarkProcessed(event) else
    match ModerationPlan(d, found.value.status, now, ttl)
    case None => MarkProcessed(event)
    case Some(upd) => ApplyModeration(event, id, upd, NewAdEvent(AdUpdated, id, Transitioned(found.value, upd)))
  }

  class Service {
    const repo: AdRepo
    const ttl: int

    constructor (repo: AdRepo, ttl: int)
      ensures this.repo == repo && this.ttl == ttl
    {
      this.repo, this.ttl := repo, ttl;
    }

    /** An owner's status action: read, check, plan, write. */
    method ChangeStatus(op: OwnerOp, id: AdId, user: UserId) returns (r: Result<Ad, AppError>)
      requires !op.Edit? && !op.Remove?
      modifies repo
      ensures var before := old(repo.Tables());
              match GetByID(before, id)
              case Err(_) => r == Err(Missing) && repo.Tables() == before
              case Ok(a) =>
                match OwnerPlan(op, id, user, a, ttl)
                case Err(e) => r == Err(e) && repo.Tables() == before
                case Ok(w) => r == Ok(Transitioned(a, w.upd)) && Ok(repo.Tables()) == Perform(before, w)
      ensures r.Ok? ==> id in repo.ads && repo.ads[id] == r.value  // what is returned is what is stored
    {
      hide Objection;
      hide AfterEdit;
      hide CanTransitionTo;
      if id !in repo.ads {
        return Err(Missing);
      }
      var a := repo.ads[id];
      if a.userId != user {
        return Err(Forbidden);
      }
      var plan := StatusPlan(op, a, ttl);
      hide StatusPlan;
      if plan.Err? {
        return Err(plan.error);
      }
      var upd, subject := plan.value.0, plan.value.1;
      a := a.(status := upd.to);
      if upd.publishedAt.Some? {
        a := a.(publishedAt := upd.publishedAt);
      }
      if upd.expiresAt.Some? {
        a := a.(expiresAt := upd.expiresAt);
      }
      assert a == Transitioned(repo.ads[id], upd);
      hide NewAdEvent;
      var done := repo.TransitionWithEvent(id, upd, NewAdEvent(subject, id, a));
      match done
      case Err(e) => r := Err(Refused(e));
      case Ok(_) => r := Ok(a);
    }

    method Update(id: AdId, user: UserId, input: UpdateInput, answer: CatalogAnswer, isFloat: string -> bool)
      returns (r: Result<Ad, AppError>)
      modifies repo
      ensures var before := old(repo.Tables());
              match GetByID(before, id)
              case Err(_) => r == Err(Missing) && repo.Tables() == before
              case Ok(a) =>
                match OwnerPlan(Edit(input, answer, isFloat), id, user, a, ttl)
                case Err(e) => r == Err(e) && repo.Tables() == before
                case Ok(w) =>
                  match Perform(before, w)
                  case Err(e) => r == Err(Refused(e)) && repo.Tables() == before
                  case Ok(after) => r == Ok(AfterEdit(a, input)) && repo.Tables() == after
      ensures r.Ok? ==> id in repo.ads && repo.ads[id] == r.value  // an edit loses no field
    {
      hide StatusPlan;
      if id !in repo.ads {
        return Err(Missing);
      }
      var a := repo.ads[id];
      if a.userId != user {
        return Err(Forbidden);
      }
      if !Editable(a.status) {
        return Err(NotEditable);
      }
      var edited, keyChanged := ApplyUpdate(a, input);
      var flaw := CoreFlaw(edited);
      if flaw.Some? {
        return Err(Invalid(flaw.value));
      }
      flaw := ValidateImages(edited.images);
      if flaw.Some? {
        return Err(Invalid(flaw.value));
      }
      if !answer.Attributes? {
        return Err(if answer.NoSuchCategory? then CategoryNotFound else CatalogFails);
      }
      flaw := ValidateAttributes(answer.specs, edited.attributes, isFloat);
      if flaw.Some? {
        return Err(Invalid(flaw.value));
      }
      if keyChanged && edited.status == Active {
        edited := edited.(status := Pending);
      }
      var done := repo.UpdateWithEvent(id, edited, NewAdEvent(AdUpdated, id, edited));
      r := if done.Err? then Err(Refused(done.error)) else Ok(edited);
    }
  }
}
