/**
 A moderation decision on its way to an ad: published at least once, delivered at least
 once, checked against the inbox outside the transaction that applies it
 (services/listing/internal/worker/moderation.go:50-104,
 services/listing/internal/repo/ad.go:121-150, pkg/shared/outbox/inbox.go).
 */
module Moderation {
  import opened Clock
  import opened Collections
  import opened Listing
  import opened ListingService
  import opened Bus
  import opened BusRuns

  /** The handler, alone. */
  class Moderator {
    const repo: AdRepo
    const ttl: int

    constructor (repo: AdRepo, ttl: int)
      ensures this.repo == repo && this.ttl == ttl
    {
      this.repo, this.ttl := repo, ttl;
    }

    method Handle(event: EventId, decision: Decision, id: AdId, now: Time)
      modifies repo
      ensures var before := old(repo.Tables());
              Ok(repo.Tables()) == if event in before.processed then Ok(before)
                                   else Perform(before, ModerationWrite(decision, event, id, GetByID(before, id), now, ttl))
      ensures event in repo.processed
    {
      var processed := repo.IsEventProcessed(event);
      if processed {
        return;
      }
      if id !in repo.ads {
        repo.MarkEventProcessed(event);
        return;
      }
      var a := repo.ads[id];
      var upd := ModerationPlan(decision, a.status, now, ttl);
      if upd.None? {
        repo.MarkEventProcessed(event);
        return;
      }
      repo.ApplyModerationWithEvent(event, id, upd.value, NewAdEvent(AdUpdated, id, Transitioned(a, upd.value)));
    }
  }

  /* Decisions in flight */

  datatype Decided = Decided(decision: Decision, ad: AdId)

  datatype Stage = Started | Checked | Planned(write: Write) | Done

  datatype Flight = Flight(copy: nat, attempt: nat, event: nat, stage: Stage) | Landed

  /** `effects` lists, in order, the events whose application moved an ad and enqueued its follow-up. */
  datatype State = State(decisions: seq<Decided>, bus: BusState, db: Db, flights: seq<Flight>, effects: seq<nat>)

  const INIT: State := State([], EMPTY_BUS, EMPTY, [], [])

  datatype Action =
    | Decide(decision: Decision, ad: AdId)
    | Relaying(step: RelayAction)
    | Elsewhere(write: Write)  // anything else that happens to ads
    | Take(copy: nat)
    | Check(flight: nat)
    | ReadAd(flight: nat, now: Time)
    | Commit(flight: nat)
    | Acknowledge(flight: nat)
    | Fail(flight: nat)
    | Crash(flight: nat)

  ghost predicate Up(s: State, f: nat) {
    f < |s.flights| && s.flights[f].Flight? && s.flights[f].copy < |s.bus.copies| && s.flights[f].event < |s.decisions|
  }

  ghost predicate Enabled(s: State, a: Action, maxDeliver: int) {
    match a
    case Decide(_, _) => true
    case Relaying(step) => RelayEnabled(s.bus, step)
    case Elsewhere(w) => !w.ApplyModeration? && !w.MarkProcessed? && Perform(s.db, w).Ok?
    case Take(c) => CanDeliver(s.bus, c, maxDeliver) && s.bus.copies[c].event < |s.decisions|
    case Check(f) => Up(s, f) && s.flights[f].stage.Started?
    case ReadAd(f, _) => Up(s, f) && s.flights[f].stage.Checked?
    case Commit(f) => Up(s, f) && s.flights[f].stage.Planned? && Perform(s.db, s.flights[f].stage.write).Ok?
    case Acknowledge(f) => Up(s, f) && s.flights[f].stage.Done?
    case Fail(f) => Up(s, f)  // also after a commit whose answer was lost
    case Crash(f) => f < |s.flights|
  }

  function Advance(s: State, f: nat, stage: Stage): seq<Flight>
    requires f < |s.flights| && s.flights[f].Flight?
  {
    s.flights[f := s.flights[f].(stage := stage)]
  }

  ghost function Apply(s: State, a: Action, ttl: int, maxDeliver: int): State
    requires Enabled(s, a, maxDeliver)
  {
    match a
    case Decide(decision, ad) => s.(decisions := s.decisions + [Decided(decision, ad)], bus := Enqueue(s.bus, 1))
    case Relaying(step) => s.(bus := RelayStep(s.bus, step))
    case Elsewhere(w) => s.(db := Perform(s.db, w).value)
    case Take(c) =>
      s.(bus := Deliver(s.bus, c),
         flights := s.flights + [Flight(c, s.bus.copies[c].delivered + 1, s.bus.copies[c].event, Started)])
    case Check(f) =>
      s.(flights := Advance(s, f, if s.flights[f].event in s.db.processed then Done else Checked))
    case ReadAd(f, now) =>
      var d := s.decisions[s.flights[f].event];
      s.(flights := Advance(s, f, Planned(
           ModerationWrite(d.decision, s.flights[f].event, d.ad, GetByID(s.db, d.ad), now, ttl))))
    case Commit(f) =>
      var db := Perform(s.db, s.flights[f].stage.write).value;
      s.(db := db, flights := Advance(s, f, Done),
         effects := if |db.outbox| > |s.db.outbox| then s.effects + [s.flights[f].event] else s.effects)
    case Acknowledge(f) =>
      s.(bus := Answer(s.bus, s.flights[f].copy, true, s.flights[f].attempt, maxDeliver), flights := s.flights[f := Landed])
    case Fail(f) =>
      s.(bus := Answer(s.bus, s.flights[f].copy, false, s.flights[f].attempt, maxDeliver), flights := s.flights[f := Landed])
    case Crash(f) => s.(flights := s.flights[f := Landed])
  }

  ghost predicate Run(states: seq<State>, actions: seq<Action>, ttl: int, maxDeliver: int) {
    && |states| == |actions| + 1
    && states[0] == INIT
    && forall i {:trigger actions[i]} :: 0 <= i < |actions| ==>
         Enabled(states[i], actions[i], maxDeliver) && states[i + 1] == Apply(states[i], actions[i], ttl, maxDeliver)
  }

  /** One handler of an event at a time. */
  ghost predicate Serial(s: State, a: Action) {
    a.Take? && a.copy < |s.bus.copies| ==>
      forall f :: 0 <= f < |s.flights| && s.flights[f].Flight? ==> s.flights[f].event != s.bus.copies[a.copy].event
  }

  ghost predicate SerialRun(states: seq<State>, actions: seq<Action>, ttl: int, maxDeliver: int) {
    Run(states, actions, ttl, maxDeliver)
    && forall i {:trigger actions[i]} :: 0 <= i < |actions| ==> Serial(states[i], actions[i])
  }

  /** The status change a decision stands for. */
  predicate Answers(d: Decision, upd: StatusUpdate) {
    match d
    case Approve => upd.from == Status.Pending && upd.to == Active && upd.publishedAt.Some? && upd.expiresAt.Some?
    case Reject => upd.from == Status.Pending && upd.to == Rejected && upd.publishedAt == upd.expiresAt == None
    case Block => upd.from != Blocked && upd.to == Blocked && upd.publishedAt == upd.expiresAt == None
  }

  ghost predicate FlightInv(s: State, g: Flight) {
    g.Flight? ==>
      && g.copy < |s.bus.copies| && s.bus.copies[g.copy].event == g.event < |s.decisions|
      && match g.stage
         case Started => true
         case Checked => g.event !in s.db.processed
         case Planned(w) =>
           && g.event !in s.db.processed && (w.MarkProcessed? || w.ApplyModeration?) && w.event == g.event
           && (w.MarkProcessed? || (w.id == w.ev.adId == s.decisions[g.event].ad && w.ev.subject == AdUpdated
                                    && Answers(s.decisions[g.event].decision, w.upd)))
         case Done => g.event in s.db.processed
  }

  ghost predicate Inv(s: State) {
    && BusInv(s.bus) && |s.bus.published| == |s.decisions|
    && (forall f, g :: 0 <= f < g < |s.flights| && s.flights[f].Flight? && s.flights[g].Flight? ==>
          s.flights[f].event != s.flights[g].event)
    && (forall f :: 0 <= f < |s.flights| ==> FlightInv(s, s.flights[f]))
    && (forall i, j :: 0 <= i < j < |s.effects| ==> s.effects[i] != s.effects[j])
    && (forall i :: 0 <= i < |s.effects| ==> s.effects[i] in s.db.processed)
    && (forall c :: 0 <= c < |s.bus.copies| && s.bus.copies[c].fate == Acked ==> s.bus.copies[c].event in s.db.processed)
  }

  lemma OthersKeepInbox(db: Db, w: Write)
    requires Perform(db, w).Ok?
    ensures var db' := Perform(db, w).value;
            db'.processed == if w.ApplyModeration? || w.MarkProcessed? then db.processed + {w.event} else db.processed
  {
  }

  /** Applying a decision moves an ad only together with a follow-up event, and then both once. */
  lemma MovesAreAnnounced(db: Db, w: Write)
    requires (w.ApplyModeration? || w.MarkProcessed?) && Perform(db, w).Ok?
    ensures var db' := Perform(db, w).value;
            || (db'.outbox == db.outbox && db'.ads == db.ads)
            || (w.ApplyModeration? && InStatus(db, w.id, w.upd.from) && db'.outbox == db.outbox + [w.ev]
                && db'.ads == db.ads[w.id := Transitioned(db.ads[w.id], w.upd)])
  {
  }

  lemma StepKeepsBus(s: State, a: Action, s': State, ttl: int, maxDeliver: int)
    requires Inv(s) && Enabled(s, a, maxDeliver) && s' == Apply(s, a, ttl, maxDeliver)
    ensures BusInv(s'.bus) && |s'.bus.published| == |s'.decisions|
    ensures |s.bus.copies| <= |s'.bus.copies|
    ensures forall c :: 0 <= c < |s.bus.copies| ==> s'.bus.copies[c].event == s.bus.copies[c].event
    ensures forall c :: 0 <= c < |s'.bus.copies| && s'.bus.copies[c].fate == Acked ==>
              (c < |s.bus.copies| && s.bus.copies[c].fate == Acked)
              || (a.Acknowledge? && c == s.flights[a.flight].copy)
  {
    if a.Relaying? {
      RelayStepKeepsBus(s.bus, a.step, s'.bus);
    } else {
      OtherStepsKeepBus(s.bus, s'.bus);
    }
  }

  lemma PlanOfDecision(d: Decision, event: EventId, id: AdId, found: Result<Ad, Error>, now: Time, ttl: int)
    ensures var w := ModerationWrite(d, event, id, found, now, ttl);
            && (w.MarkProcessed? || w.ApplyModeration?) && w.event == event
            && (w.MarkProcessed? || (w.id == w.ev.adId == id && w.ev.subject == AdUpdated && Answers(d, w.upd)))
  {
  }

  lemma FlightsKept(s: State, a: Action, s': State, ttl: int, maxDeliver: int)
    requires Inv(s) && Enabled(s, a, maxDeliver) && s' == Apply(s, a, ttl, maxDeliver)
    ensures forall f :: 0 <= f < |s'.flights| ==> FlightInv(s', s'.flights[f])
  {
    StepKeepsBus(s, a, s', ttl, maxDeliver);
    if a.Elsewhere? {
      OthersKeepInbox(s.db, a.write);
    } else if a.Commit? {
      OthersKeepInbox(s.db, s.flights[a.flight].stage.write);
      assert FlightInv(s, s.flights[a.flight]);
    } else if a.ReadAd? {
      var d := s.decisions[s.flights[a.flight].event];
      PlanOfDecision(d.decision, s.flights[a.flight].event, d.ad, GetByID(s.db, d.ad), a.now, ttl);
    }
    hide ModerationWrite;
    hide Perform;
    hide BusInv;
    hide RelayStep;
    hide Answer;
    forall f | 0 <= f < |s'.flights| ensures FlightInv(s', s'.flights[f]) {
      if f < |s.flights| {
        assert FlightInv(s, s.flights[f]);
      }
    }
  }

  lemma StepKeepsInv(s: State, a: Action, s': State, ttl: int, maxDeliver: int)
    requires Inv(s) && Enabled(s, a, maxDeliver) && Serial(s, a) && s' == Apply(s, a, ttl, maxDeliver)
    ensures Inv(s')
  {
    StepKeepsBus(s, a, s', ttl, maxDeliver);
    FlightsKept(s, a, s', ttl, maxDeliver);
    if a.Elsewhere? {
      OthersKeepInbox(s.db, a.write);
    } else if a.Commit? {
      OthersKeepInbox(s.db, s.flights[a.flight].stage.write);
      assert FlightInv(s, s.flights[a.flight]);
    } else if a.Acknowledge? {
      assert FlightInv(s, s.flights[a.flight]);
    }
    hide FlightInv;
    hide ModerationWrite;
    hide Perform;
    hide BusInv;
    hide RelayStep;
    hide Answer;
  }

  lemma {:induction false} RunKeepsInv(states: seq<State>, actions: seq<Action>, ttl: int, maxDeliver: int, i: nat)
    requires SerialRun(states, actions, ttl, maxDeliver) && i < |states|
    ensures Inv(states[i])
  {
    if i > 0 {
      RunKeepsInv(states, actions, ttl, maxDeliver, i - 1);
      StepKeepsInv(states[i - 1], actions[i - 1], states[i], ttl, maxDeliver);
    }
  }

  ghost predicate Commits(states: seq<State>, actions: seq<Action>, i: nat, event: nat)
    requires |states| == |actions| + 1
  {
    && i < |actions| && actions[i].Commit? && Up(states[i], actions[i].flight)
    && states[i].flights[actions[i].flight].event == event
  }

  lemma NoLaterCommit(states: seq<State>, actions: seq<Action>, ttl: int, maxDeliver: int, i: nat, j: nat, event: nat)
    requires SerialRun(states, actions, ttl, maxDeliver) && i < j
    requires Commits(states, actions, i, event)
    ensures !Commits(states, actions, j, event)
  {
    RunKeepsInv(states, actions, ttl, maxDeliver, i);
    assert FlightInv(states[i], states[i].flights[actions[i].flight]);
    OthersKeepInbox(states[i].db, states[i].flights[actions[i].flight].stage.write);
    if j < |actions| && actions[j].Commit? && Up(states[j], actions[j].flight) {
      InboxGrows(states, actions, ttl, maxDeliver, i + 1, j);
      RunKeepsInv(states, actions, ttl, maxDeliver, j);
      assert FlightInv(states[j], states[j].flights[actions[j].flight]);
    }
  }

  /** The decision moved its ad as it says, from the status planned, and announced that, and did nothing else. */
  ghost predicate TookEffect(db: Db, db': Db, d: Decided) {
    exists upd :: Answers(d.decision, upd) && InStatus(db, d.ad, upd.from)
      && db'.ads == db.ads[d.ad := Transitioned(db.ads[d.ad], upd)]
      && |db'.outbox| == |db.outbox| + 1 && db.outbox <= db'.outbox
      && db'.outbox[|db.outbox|].subject == AdUpdated && db'.outbox[|db.outbox|].adId == d.ad
  }

  /** However often a decision is published or delivered and wherever handlers crash, it is
      committed at most once; that commit moves the ad and enqueues one follow-up, or does neither. */
  lemma DecisionsActAtMostOnce(states: seq<State>, actions: seq<Action>, ttl: int, maxDeliver: int, i: nat, j: nat, event: nat)
    requires SerialRun(states, actions, ttl, maxDeliver)
    requires Commits(states, actions, i, event) && Commits(states, actions, j, event)
    ensures i == j
    ensures var db, db' := states[i].db, states[i + 1].db;
            || (db'.outbox == db.outbox && db'.ads == db.ads)
            || TookEffect(db, db', states[i].decisions[event])
  {
    if i < j {
      NoLaterCommit(states, actions, ttl, maxDeliver, i, j, event);
    } else if j < i {
      NoLaterCommit(states, actions, ttl, maxDeliver, j, i, event);
    }
    RunKeepsInv(states, actions, ttl, maxDeliver, i);
    var g := states[i].flights[actions[i].flight];
    assert FlightInv(states[i], g);
    MovesAreAnnounced(states[i].db, g.stage.write);
    if states[i + 1].db.outbox != states[i].db.outbox || states[i + 1].db.ads != states[i].db.ads {
      assert Answers(states[i].decisions[event].decision, g.stage.write.upd);
    }
  }

  lemma {:induction false} InboxGrows(states: seq<State>, actions: seq<Action>, ttl: int, maxDeliver: int, i: nat, j: nat)
    requires Run(states, actions, ttl, maxDeliver) && i <= j < |states|
    ensures states[i].db.processed <= states[j].db.processed
  {
    if i < j {
      InboxGrows(states, actions, ttl, maxDeliver, i, j - 1);
      var s, a := states[j - 1], actions[j - 1];
      if a.Elsewhere? {
        OthersKeepInbox(s.db, a.write);
      } else if a.Commit? {
        OthersKeepInbox(s.db, s.flights[a.flight].stage.write);
      }
    }
  }

  /** A handler that checks after the event was processed ends without writing, whatever happened
      in between and however many handlers of the event there are. */
  lemma RedeliveryIsIgnored(states: seq<State>, actions: seq<Action>, ttl: int, maxDeliver: int, i: nat, j: nat, f: nat)
    requires Run(states, actions, ttl, maxDeliver) && i <= j < |actions|
    requires actions[j] == Check(f) && f < |states[j].flights| && states[j].flights[f].Flight?
    requires states[j].flights[f].event in states[i].db.processed
    ensures states[j + 1].flights[f].stage.Done? && states[j + 1].db == states[j].db
  {
    InboxGrows(states, actions, ttl, maxDeliver, i, j);
  }

  /** Each event is among the effects at most once, and an acknowledged decision has been processed. */
  lemma EffectsAreUnique(states: seq<State>, actions: seq<Action>, ttl: int, maxDeliver: int, i: nat)
    requires SerialRun(states, actions, ttl, maxDeliver) && i < |states|
    ensures var s := states[i];
            && (forall m, n :: 0 <= m < n < |s.effects| ==> s.effects[m] != s.effects[n])
            && (forall c :: 0 <= c < |s.bus.copies| && s.bus.copies[c].fate == Acked ==> s.bus.copies[c].event in s.db.processed)
            && (Drained(s.bus) ==> forall e :: 0 <= e < |s.decisions| ==> e in s.db.processed)
  {
    RunKeepsInv(states, actions, ttl, maxDeliver, i);
    var s := states[i];
    if Drained(s.bus) {
      forall e | 0 <= e < |s.decisions| ensures e in s.db.processed {
        DrainedIsSettled(s.bus, e);
      }
    }
  }
}
