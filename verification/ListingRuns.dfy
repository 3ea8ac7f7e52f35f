/**
 Every interleaving of the reads and writes of owners, moderators and sweeping workers:
 a plan made from what was read may be written long after the ad has moved on
 (services/listing/internal/app/service.go:190-232 and 337-420,
 services/listing/internal/worker/moderation.go:53-134, services/listing/internal/repo/ad.go).
 */
module ListingRuns {
  import opened Clock
  import opened Collections
  import opened Listing
  import opened ListingService
  import AdValidation

  /** Who reads an ad to write it. */
  datatype Actor =
    | Owner(op: OwnerOp, user: UserId)
    | Moderator(decision: Decision, event: EventId, now: Time)
    | ExpirySweep(now: Time)
    | PromoSweep(now: Time)
    | Promoter(rank: int, endsAt: Option<Time>)

  /** A planned write and the ad it was planned from. */
  datatype Task = Task(write: Write, seen: Ad) | Over

  /** `born` are the ids ever given to an ad. */
  datatype State = State(db: Db, born: set<AdId>, tasks: seq<Task>)

  const INIT: State := State(EMPTY, {}, [])

  datatype Action =
    | CreateAd(id: AdId, ad: Ad)
    | Read(id: AdId, actor: Actor)
    | Act(task: nat)
    | Abandon(task: nat)
    | BumpAd(id: AdId, at: Time)
    | FlushViews(counts: map<AdId, int>)

  /** The write an actor plans from the ad it has read, if any. */
  function PlanOf(id: AdId, a: Ad, actor: Actor, ttl: int): Option<Write> {
    match actor
    case Owner(op, user) =>
      (match OwnerPlan(op, id, user, a, ttl)
       case Ok(w) => Some(w)
       case Err(_) => None)
    case Moderator(decision, event, now) => Some(ModerationWrite(decision, event, id, Ok(a), now, ttl))
    case ExpirySweep(now) => Some(Expire(id, now, NewAdEvent(AdExpired, id, a.(status := Expired))))
    case PromoSweep(now) => Some(ClearPromotion(id, now, NewAdEvent(AdUpdated, id, a)))
    case Promoter(rank, endsAt) => Some(SetPromotion(id, rank, endsAt, NewAdEvent(AdUpdated, id, a)))
  }

  /** What the service creates: a draft, not yet published. */
  predicate NewDraft(a: Ad) {
    a.status == Draft && a.publishedAt == None && a.expiresAt == None
  }

  /** A write the service makes of an ad as it stands. */
  ghost predicate PlannedNow(db: Db, w: Write, ttl: int) {
    || (w.Create? && NewDraft(w.ad))
    || exists id, actor :: id in db.ads && PlanOf(id, db.ads[id], actor, ttl) == Some(w)
  }

  ghost predicate Enabled(s: State, a: Action, ttl: int) {
    match a
    case CreateAd(id, ad) =>
      // a generated id is new, also among the ids of ads deleted since
      id !in s.born && NewDraft(ad) && Perform(s.db, Create(id, ad, NewAdEvent(AdCreated, id, ad))).Ok?
    case Read(id, actor) => id in s.db.ads && PlanOf(id, s.db.ads[id], actor, ttl).Some?
    case Act(k) => k < |s.tasks| && s.tasks[k].Task? && Perform(s.db, s.tasks[k].write).Ok?
    case Abandon(k) => k < |s.tasks|
    case BumpAd(_, _) => true
    case FlushViews(_) => true
  }

  ghost function Apply(s: State, a: Action, ttl: int): State
    requires Enabled(s, a, ttl)
  {
    match a
    case CreateAd(id, ad) =>
      s.(db := Perform(s.db, Create(id, ad, NewAdEvent(AdCreated, id, ad))).value, born := s.born + {id})
    case Read(id, actor) => s.(tasks := s.tasks + [Task(PlanOf(id, s.db.ads[id], actor, ttl).value, s.db.ads[id])])
    case Act(k) => s.(db := Perform(s.db, s.tasks[k].write).value, tasks := s.tasks[k := Over])
    case Abandon(k) => s.(tasks := s.tasks[k := Over])
    case BumpAd(id, at) => s.(db := Perform(s.db, Bump(id, at, AdEvent(AdBumped, id, Active, ""))).value)
    case FlushViews(counts) => s.(db := Perform(s.db, AddViews(counts)).value)
  }

  ghost predicate Run(states: seq<State>, actions: seq<Action>, ttl: int) {
    && |states| == |actions| + 1
    && states[0] == INIT
    && forall i {:trigger actions[i]} :: 0 <= i < |actions| ==>
         Enabled(states[i], actions[i], ttl) && states[i + 1] == Apply(states[i], actions[i], ttl)
  }

  /** The write an action makes. */
  ghost function WriteOf(s: State, a: Action, ttl: int): Option<Write>
    requires Enabled(s, a, ttl)
  {
    match a
    case CreateAd(id, ad) => Some(Create(id, ad, NewAdEvent(AdCreated, id, ad)))
    case Act(k) => Some(s.tasks[k].write)
    case BumpAd(id, at) => Some(Bump(id, at, AdEvent(AdBumped, id, Active, "")))
    case FlushViews(counts) => Some(AddViews(counts))
    case _ => None
  }

  /* Publication and expiry dates */

  predicate WasPublished(s: Status) {
    s == Active || s == Sold || s == Expired || s == Archived
  }

  predicate Dated(a: Ad) {
    a.publishedAt.Some? && a.expiresAt.Some?
  }

  predicate DatedIfPublished(a: Ad) {
    WasPublished(a.status) ==> Dated(a)
  }

  /** A planned status change leads to a published status only from one, or brings both dates. */
  predicate DatesKept(upd: StatusUpdate) {
    WasPublished(upd.to) ==> WasPublished(upd.from) || (upd.publishedAt.Some? && upd.expiresAt.Some?)
  }

  ghost predicate TaskInv(s: State, t: Task) {
    t.Task? ==>
      match t.write
      case Transition(_, upd, _) => DatesKept(upd)
      case ApplyModeration(_, _, upd, _) => DatesKept(upd)
      case Update(id, ad, _) =>
        // the row the edit was made from had its dates, and dates are never taken back
        id in s.born && (WasPublished(ad.status) && id in s.db.ads ==> Dated(s.db.ads[id]))
      case Create(_, _, _) => false
      case _ => true
  }

  ghost predicate Inv(s: State) {
    && s.db.ads.Keys <= s.born
    && (forall id :: id in s.db.ads ==> DatedIfPublished(s.db.ads[id]))
    && forall k :: 0 <= k < |s.tasks| ==> TaskInv(s, s.tasks[k])
  }

  /** No write unsets a date or brings an ad back. */
  ghost predicate DatesMonotone(db: Db, db': Db, w: Write) {
    && (forall id :: id in db'.ads && id !in db.ads ==> w.Create? && w.id == id)
    && (forall id :: id in db.ads && id in db'.ads && Dated(db.ads[id]) ==> Dated(db'.ads[id]))
  }

  lemma WritesKeepDates(db: Db, w: Write)
    requires Perform(db, w).Ok?
    ensures DatesMonotone(db, Perform(db, w).value, w)
  {
  }

  lemma WriteKeepsInv(s: State, w: Write, k: nat)
    requires Inv(s) && Perform(s.db, w).Ok?
    requires k < |s.tasks| && s.tasks[k].Task? && s.tasks[k].write == w
    ensures forall id :: id in Perform(s.db, w).value.ads ==> DatedIfPublished(Perform(s.db, w).value.ads[id])
  {
  }

  lemma StepKeepsInv(s: State, a: Action, ttl: int, s': State)
    requires Inv(s) && Enabled(s, a, ttl) && s' == Apply(s, a, ttl)
    ensures Inv(s')
  {
    var w := WriteOf(s, a, ttl);
    if w.Some? {
      WritesKeepDates(s.db, w.value);
      if a.Act? {
        WriteKeepsInv(s, w.value, a.task);
      }
      forall k | 0 <= k < |s'.tasks| ensures TaskInv(s', s'.tasks[k]) {
        assert TaskInv(s, s.tasks[k]);
      }
    } else if a.Read? {
      PlannedTaskInv(s, a.id, a.actor, ttl);
      forall k | 0 <= k < |s'.tasks| ensures TaskInv(s', s'.tasks[k]) {
        if k < |s.tasks| {
          assert TaskInv(s, s.tasks[k]);
        }
      }
    } else {
      forall k | 0 <= k < |s'.tasks| ensures TaskInv(s', s'.tasks[k]) {
        assert TaskInv(s, s.tasks[k]);
      }
    }
  }

  lemma PlannedTaskInv(s: State, id: AdId, actor: Actor, ttl: int)
    requires Inv(s) && id in s.db.ads && PlanOf(id, s.db.ads[id], actor, ttl).Some?
    ensures TaskInv(s, Task(PlanOf(id, s.db.ads[id], actor, ttl).value, s.db.ads[id]))
  {
  }

  lemma {:induction false} RunKeepsInv(states: seq<State>, actions: seq<Action>, ttl: int, i: nat)
    requires Run(states, actions, ttl) && i < |states|
    ensures Inv(states[i])
  {
    if i > 0 {
      RunKeepsInv(states, actions, ttl, i - 1);
      StepKeepsInv(states[i - 1], actions[i - 1], ttl, states[i]);
    }
  }

  /** However stale the plans, every ad that was ever on show has both dates. */
  lemma PublishedAdsAreDated(states: seq<State>, actions: seq<Action>, ttl: int, i: nat, id: AdId)
    requires Run(states, actions, ttl) && i < |states|
    requires id in states[i].db.ads && WasPublished(states[i].db.ads[id].status)
    ensures states[i].db.ads[id].publishedAt.Some? && states[i].db.ads[id].expiresAt.Some?
  {
    RunKeepsInv(states, actions, ttl, i);
  }

  /* Status changes */

  /** What is known of any write planned from `seen`. */
  ghost predicate Planned(w: Write, seen: Ad) {
    match w
    case Transition(_, upd, _) => CanTransitionTo(upd.from, upd.to) || upd.from == upd.to == Active
    case ApplyModeration(_, _, upd, _) => CanTransitionTo(upd.from, upd.to)
    case Update(_, ad, _) =>
      Editable(seen.status) && (ad.status == seen.status || (seen.status == Active && ad.status == Pending))
    case _ => !w.Create?
  }

  /** An edit that finds the ad in the status it was read in. */
  ghost predicate Fresh(db: Db, w: Write, seen: Ad) {
    w.Update? && w.id in db.ads ==> db.ads[w.id].status == seen.status
  }

  lemma PlansArePlanned(id: AdId, a: Ad, actor: Actor, ttl: int)
    requires PlanOf(id, a, actor, ttl).Some?
    ensures Planned(PlanOf(id, a, actor, ttl).value, a)
  {
  }

  /** A planned write moves an ad along the map of transitions, or to blocked, unless it is an
      edit made from an older status. */
  lemma WritesFollowTheMap(db: Db, w: Write, seen: Ad, id: AdId)
    requires Planned(w, seen) && Fresh(db, w, seen)
    requires Perform(db, w).Ok? && id in db.ads && id in Perform(db, w).value.ads
    ensures var from, to := db.ads[id].status, Perform(db, w).value.ads[id].status;
            from == to || CanTransitionTo(from, to)
  {
  }

  /** The one write that takes an ad out of blocked is an edit of it. */
  lemma OnlyEditsUnblock(db: Db, w: Write, seen: Ad, id: AdId)
    requires Planned(w, seen) && Perform(db, w).Ok?
    requires InStatus(db, id, Blocked) && id in Perform(db, w).value.ads
    ensures Perform(db, w).value.ads[id].status != Blocked <==> w.Update? && w.id == id
  {
  }

  ghost predicate TasksPlanned(s: State) {
    forall k :: 0 <= k < |s.tasks| && s.tasks[k].Task? ==> Planned(s.tasks[k].write, s.tasks[k].seen)
  }

  lemma {:induction false} RunPlans(states: seq<State>, actions: seq<Action>, ttl: int, i: nat)
    requires Run(states, actions, ttl) && i < |states|
    ensures TasksPlanned(states[i])
  {
    if i > 0 {
      RunPlans(states, actions, ttl, i - 1);
      var a := actions[i - 1];
      if a.Read? {
        PlansArePlanned(a.id, states[i - 1].db.ads[a.id], a.actor, ttl);
      }
    }
  }

  /** The run's edits are as if read and written in one step. */
  ghost predicate AtomicEdits(states: seq<State>, actions: seq<Action>, ttl: int)
    requires Run(states, actions, ttl)
  {
    forall i {:trigger actions[i]} :: 0 <= i < |actions| && actions[i].Act? ==>
      Fresh(states[i].db, states[i].tasks[actions[i].task].write, states[i].tasks[actions[i].task].seen)
  }

  /** The status an ad may come from when it takes on another. */
  ghost predicate LeadsTo(from: Status, to: Status) {
    match to
    case Draft => false
    case Pending => from in {Draft, Rejected, Active}
    case Active => from in {Pending, Expired}
    case Rejected => from == Pending
    case Sold => from == Active
    case Expired => from == Active
    case Archived => from == Active
    case Blocked => true
  }

  lemma TheMap(from: Status, to: Status)
    ensures CanTransitionTo(from, to) <==> LeadsTo(from, to)
  {
  }

  /** With atomic edits, a step changes an ad's status only along the map of transitions. */
  lemma StatusesFollowTheMap(states: seq<State>, actions: seq<Action>, ttl: int, i: nat, id: AdId)
    requires Run(states, actions, ttl) && AtomicEdits(states, actions, ttl) && i < |actions|
    requires id in states[i].db.ads && id in states[i + 1].db.ads
    ensures var from, to := states[i].db.ads[id].status, states[i + 1].db.ads[id].status;
            from == to || LeadsTo(from, to)
  {
    TheMap(states[i].db.ads[id].status, states[i + 1].db.ads[id].status);
    hide LeadsTo;
    RunPlans(states, actions, ttl, i);
    RunKeepsInv(states, actions, ttl, i);
    var s, a := states[i], actions[i];
    if a.Act? {
      WritesFollowTheMap(s.db, s.tasks[a.task].write, s.tasks[a.task].seen, id);
    }
  }

  /** A deleted ad does not come back: its id is never given out again, and no other write creates a row. */
  lemma DeletedStaysDeleted(s: State, a: Action, ttl: int, s': State, id: AdId)
    requires Inv(s) && Enabled(s, a, ttl) && s' == Apply(s, a, ttl)
    requires id in s.born && id !in s.db.ads
    ensures id !in s'.db.ads
  {
  }

  /** With atomic edits a blocked ad stays blocked until it is deleted, and is then gone for good. */
  lemma {:induction false} BlockedUntilDeleted(states: seq<State>, actions: seq<Action>, ttl: int, i: nat, j: nat, id: AdId)
    requires Run(states, actions, ttl) && AtomicEdits(states, actions, ttl) && i <= j < |states|
    requires InStatus(states[i].db, id, Blocked)
    ensures id in states[j].born
    ensures id in states[j].db.ads ==> states[j].db.ads[id].status == Blocked
  {
    RunKeepsInv(states, actions, ttl, j);
    if i < j {
      BlockedUntilDeleted(states, actions, ttl, i, j - 1, id);
      RunKeepsInv(states, actions, ttl, j - 1);
      if id !in states[j - 1].db.ads {
        DeletedStaysDeleted(states[j - 1], actions[j - 1], ttl, states[j], id);
      } else if id in states[j].db.ads {
        StatusesFollowTheMap(states, actions, ttl, j - 1, id);
      }
    }
  }

  /* A stale edit puts a blocked ad back on show. */

  const DRAFT: Ad := Ad(1, "c", "title", "", 0, "UZS", 1, None, None, None, Draft, true,
                        None, None, None, false, 0, None, 0, 0, [], [])
  const ACTIVE: Ad := DRAFT.(status := Active, publishedAt := Some(0), expiresAt := Some(10))
  const HIDE_PHONE: UpdateInput := UpdateInput(None, None, None, None, None, None, None, None, None, Some(false), None, None)

  const ACTIONS: seq<Action> := [
    CreateAd(1, DRAFT),
    Read(1, Owner(Submit, 1)), Act(0),
    Read(1, Moderator(Approve, 0, 0)), Act(1),
    Read(1, Owner(Edit(HIDE_PHONE, Attributes([]), s => false), 1)),
    Read(1, Moderator(Block, 1, 0)), Act(3),
    Act(2)]

  /** The owner hides a phone number while a moderator blocks the ad; the edit, written last,
      also writes back the status it had read. */
  lemma StaleEditUnblocks() returns (states: seq<State>)
    ensures Run(states, ACTIONS, 10)
    ensures InStatus(states[8].db, 1, Blocked) && InStatus(states[9].db, 1, Active)
  {
    hide Apply;
    hide Enabled;
    var s1, s2, s3 := UntilPending();
    var s4, s5 := UntilActive(s3);
    var s6 := EditRead(s5);
    var s7, s8, s9 := UntilUnblocked(s6);
    states := [INIT, s1, s2, s3, s4, s5, s6, s7, s8, s9];
  }

  lemma UntilPending() returns (s1: State, s2: State, s3: State)
    ensures Enabled(INIT, ACTIONS[0], 10) && s1 == Apply(INIT, ACTIONS[0], 10)
    ensures Enabled(s1, ACTIONS[1], 10) && s2 == Apply(s1, ACTIONS[1], 10)
    ensures Enabled(s2, ACTIONS[2], 10) && s3 == Apply(s2, ACTIONS[2], 10)
    ensures s3.db.ads == map[1 := DRAFT.(status := Pending)] && s3.tasks == [Over]
  {
    s1 := Apply(INIT, ACTIONS[0], 10);
    s2 := Apply(s1, ACTIONS[1], 10);
    s3 := Apply(s2, ACTIONS[2], 10);
  }

  lemma UntilActive(s3: State) returns (s4: State, s5: State)
    requires s3.db.ads == map[1 := DRAFT.(status := Pending)] && s3.tasks == [Over]
    ensures Enabled(s3, ACTIONS[3], 10) && s4 == Apply(s3, ACTIONS[3], 10)
    ensures Enabled(s4, ACTIONS[4], 10) && s5 == Apply(s4, ACTIONS[4], 10)
    ensures s5.db.ads == map[1 := ACTIVE] && s5.tasks == [Over, Over]
  {
    s4 := Apply(s3, ACTIONS[3], 10);
    s5 := Apply(s4, ACTIONS[4], 10);
  }

  const EDITED: Ad := ACTIVE.(phoneDisplay := false)

  lemma EditRead(s5: State) returns (s6: State)
    requires s5.db.ads == map[1 := ACTIVE] && s5.tasks == [Over, Over]
    ensures Enabled(s5, ACTIONS[5], 10) && s6 == Apply(s5, ACTIONS[5], 10)
    ensures s6 == s5.(tasks := [Over, Over, Task(Update(1, EDITED, NewAdEvent(AdUpdated, 1, EDITED)), ACTIVE)])
  {
    AdValidation.Utf8Bounds("title");
    s6 := Apply(s5, ACTIONS[5], 10);
  }

  lemma UntilUnblocked(s6: State) returns (s7: State, s8: State, s9: State)
    requires s6.db.ads == map[1 := ACTIVE]
    requires s6.tasks == [Over, Over, Task(Update(1, EDITED, NewAdEvent(AdUpdated, 1, EDITED)), ACTIVE)]
    ensures Enabled(s6, ACTIONS[6], 10) && s7 == Apply(s6, ACTIONS[6], 10)
    ensures Enabled(s7, ACTIONS[7], 10) && s8 == Apply(s7, ACTIONS[7], 10)
    ensures Enabled(s8, ACTIONS[8], 10) && s9 == Apply(s8, ACTIONS[8], 10)
    ensures InStatus(s8.db, 1, Blocked) && InStatus(s9.db, 1, Active)
  {
    s7 := Apply(s6, ACTIONS[6], 10);
    assert s7.db == s6.db && s7.tasks[3].write.upd == StatusUpdate(Active, Blocked, None, None);
    s8 := Apply(s7, ACTIONS[7], 10);
    s9 := Apply(s8, ACTIONS[8], 10);
  }
}
