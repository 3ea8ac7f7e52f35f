/**
 From a business write to the search index: an event in the outbox, relays, copies
 delivered at least once and again after a crash, and handlers that read the ad anew
 (services/search/internal/indexer/indexer.go:56-84, services/listing/internal/repo/ad.go:483-499).
 */
module Indexing {
  import opened Collections
  import opened Listing
  import opened SearchIndex
  import opened Bus
  import opened BusRuns
  import ListingService
  import ListingRuns

  /** How far a handler is: the ad's row and its attributes are read by two statements. */
  datatype Stage = Started | RowRead(row: Option<Ad>) | Fetched(doc: Option<Doc>) | Written

  /** A handler of one delivery of a listing event, or of another service's event about an ad. */
  datatype Flight = Flight(copy: nat, attempt: nat, ad: AdId, stage: Stage) | Guest(ad: AdId, stage: Stage) | Landed

  datatype State = State(db: Db, bus: BusState, index: map<AdId, Doc>, flights: seq<Flight>)

  const INIT: State := State(EMPTY, EMPTY_BUS, map[], [])

  datatype Action =
    | Change(write: Write)
    | Relaying(step: RelayAction)
    | Take(copy: nat)
    | Visit(ad: AdId)  // moderation publishes approvals, with a relay and a stream of its own
    | ReadRow(flight: nat)
    | ReadChildren(flight: nat)
    | Store(flight: nat)
    | Acknowledge(flight: nat)
    | Fail(flight: nat)
    | Crash(flight: nat)

  /** The ad as the handler assembles it: the row read first, the attributes there are now. */
  function Assemble(row: Option<Ad>, now: Option<Ad>): Option<Ad> {
    if row.None? then None
    else Some(row.value.(attributes := if now.Some? then now.value.attributes else []))
  }

  function Indexed(index: map<AdId, Doc>, id: AdId, doc: Option<Doc>): map<AdId, Doc> {
    if doc.Some? then index[id := doc.value] else index - {id}
  }

  /** Another service's messages are no concern of this bus. */
  function Answered(s: State, f: nat, handled: bool, maxDeliver: int): BusState
    requires f < |s.flights| && (s.flights[f].Flight? ==> s.flights[f].copy < |s.bus.copies|)
  {
    var g := s.flights[f];
    if g.Flight? then Answer(s.bus, g.copy, handled, g.attempt, maxDeliver) else s.bus
  }

  predicate At(s: State, f: nat, stage: Stage -> bool) {
    f < |s.flights| && !s.flights[f].Landed? && stage(s.flights[f].stage)
  }

  ghost predicate Enabled(s: State, a: Action, maxDeliver: int) {
    match a
    case Change(w) => Aimed(w) && Perform(s.db, w).Ok?
    case Relaying(step) => RelayEnabled(s.bus, step)
    case Take(c) => CanDeliver(s.bus, c, maxDeliver) && s.bus.copies[c].event < |s.db.outbox|
    case Visit(_) => true
    case ReadRow(f) => At(s, f, (g: Stage) => g.Started?)
    case ReadChildren(f) => At(s, f, (g: Stage) => g.RowRead?)
    case Store(f) => At(s, f, (g: Stage) => g.Fetched?)
    case Acknowledge(f) => At(s, f, (g: Stage) => g.Written?) && (s.flights[f].Flight? ==> s.flights[f].copy < |s.bus.copies|)
    case Fail(f) =>  // also after a write that took effect
      At(s, f, (g: Stage) => true) && (s.flights[f].Flight? ==> s.flights[f].copy < |s.bus.copies|)
    case Crash(f) => f < |s.flights|
  }

  ghost function Apply(s: State, a: Action, maxDeliver: int): State
    requires Enabled(s, a, maxDeliver)
  {
    match a
    case Change(w) =>
      var db := Perform(s.db, w).value;
      s.(db := db, bus := if |db.outbox| > |s.db.outbox| then Enqueue(s.bus, |db.outbox| - |s.db.outbox|) else s.bus)
    case Relaying(step) => s.(bus := RelayStep(s.bus, step))
    case Take(c) =>
      s.(bus := Deliver(s.bus, c),
         flights := s.flights + [Flight(c, s.bus.copies[c].delivered + 1, s.db.outbox[s.bus.copies[c].event].adId, Started)])
    case Visit(ad) => s.(flights := s.flights + [Guest(ad, Started)])
    case ReadRow(f) => s.(flights := s.flights[f := s.flights[f].(stage := RowRead(Lookup(s.db.ads, s.flights[f].ad)))])
    case ReadChildren(f) =>
      var id := s.flights[f].ad;
      s.(flights := s.flights[f := s.flights[f].(
           stage := Fetched(DocOf(id, Assemble(s.flights[f].stage.row, Lookup(s.db.ads, id)))))])
    case Store(f) =>
      s.(index := Indexed(s.index, s.flights[f].ad, s.flights[f].stage.doc),
         flights := s.flights[f := s.flights[f].(stage := Written)])
    case Acknowledge(f) => s.(bus := Answered(s, f, true, maxDeliver), flights := s.flights[f := Landed])
    case Fail(f) => s.(bus := Answered(s, f, false, maxDeliver), flights := s.flights[f := Landed])
    case Crash(f) => s.(flights := s.flights[f := Landed])
  }

  ghost predicate Run(states: seq<State>, actions: seq<Action>, maxDeliver: int) {
    && |states| == |actions| + 1
    && states[0] == INIT
    && forall i {:trigger actions[i]} :: 0 <= i < |actions| ==>
         Enabled(states[i], actions[i], maxDeliver) && states[i + 1] == Apply(states[i], actions[i], maxDeliver)
  }

  /** The subjects the indexer subscribes to. */
  const SUBSCRIBED: set<Subject> := {AdCreated, AdUpdated, AdDeleted, AdApproved, AdBumped, AdSold, AdExpired}

  /** The write carries an event about its ad, on a subject the indexer listens to, if it has a target at all. */
  predicate ReachesTheIndexer(w: Write) {
    Aimed(w) && (Target(w).Some? ==> w.ev.subject in SUBSCRIBED)
  }

  ghost predicate TasksReach(s: ListingRuns.State) {
    forall k :: 0 <= k < |s.tasks| && s.tasks[k].Task? ==> ReachesTheIndexer(s.tasks[k].write)
  }

  lemma {:induction false} TasksReachTheIndexer(states: seq<ListingRuns.State>, actions: seq<ListingRuns.Action>, ttl: int, i: nat)
    requires ListingRuns.Run(states, actions, ttl) && i < |states|
    ensures TasksReach(states[i])
  {
    if i > 0 {
      TasksReachTheIndexer(states, actions, ttl, i - 1);
      if actions[i - 1].Read? {
        var a := actions[i - 1];
        PlanReachesTheIndexer(a.id, states[i - 1].db.ads[a.id], a.actor, ttl);
      }
      hide ReachesTheIndexer;
    }
  }

  lemma PlanReachesTheIndexer(id: AdId, a: Ad, actor: ListingRuns.Actor, ttl: int)
    requires ListingRuns.PlanOf(id, a, actor, ttl).Some?
    ensures ReachesTheIndexer(ListingRuns.PlanOf(id, a, actor, ttl).value)
  {
  }

  /** Every write of every run of the listing service, creations and bumps included, is one the
      runs below allow, on a subject the indexer listens to. */
  lemma ListingWritesReachTheIndexer(states: seq<ListingRuns.State>, actions: seq<ListingRuns.Action>, ttl: int, i: nat)
    requires ListingRuns.Run(states, actions, ttl) && i < |actions|
    ensures var w := ListingRuns.WriteOf(states[i], actions[i], ttl);
            w.Some? ==> Perform(states[i].db, w.value) == Ok(states[i + 1].db) && ReachesTheIndexer(w.value)
  {
    TasksReachTheIndexer(states, actions, ttl, i);
    hide Perform;
  }

  /* One handler of an ad at a time */

  ghost predicate Flying(s: State, id: AdId) {
    exists f :: 0 <= f < |s.flights| && !s.flights[f].Landed? && s.flights[f].ad == id
  }

  ghost predicate Serial(s: State, a: Action) {
    && (a.Take? && a.copy < |s.bus.copies| && s.bus.copies[a.copy].event < |s.db.outbox| ==>
          !Flying(s, s.db.outbox[s.bus.copies[a.copy].event].adId))
    && (a.Visit? ==> !Flying(s, a.ad))
  }

  ghost predicate SerialRun(states: seq<State>, actions: seq<Action>, maxDeliver: int) {
    Run(states, actions, maxDeliver) && forall i {:trigger actions[i]} :: 0 <= i < |actions| ==> Serial(states[i], actions[i])
  }

  /* The invariant */

  /** The document the index should hold of an ad now. */
  function Wanted(s: State, id: AdId): Option<Doc> {
    DocOf(id, Lookup(s.db.ads, id))
  }

  /** An event about the ad that no handler has yet finished with. */
  ghost predicate OpenEvent(s: State, id: AdId, e: nat) {
    e < |s.db.outbox| && s.db.outbox[e].adId == id && !Settled(s.bus, e)
  }

  ghost predicate Awaited(s: State, id: AdId) {
    exists e :: OpenEvent(s, id, e)
  }

  /** Another event than the one being handled is still open. */
  ghost predicate AwaitedBesides(s: State, id: AdId, handled: nat) {
    exists e :: OpenEvent(s, id, e) && e != handled
  }

  ghost predicate FlightInv(s: State, g: Flight) {
    match g
    case Landed => true
    case Guest(ad, _) => Holds(s, g) || Awaited(s, ad)
    case Flight(copy, _, ad, _) =>
      && copy < |s.bus.copies| && s.bus.copies[copy].event < |s.db.outbox|
      && ad == s.db.outbox[s.bus.copies[copy].event].adId
      && (Holds(s, g) || AwaitedBesides(s, ad, s.bus.copies[copy].event))
  }

  /** What the handler has is still what the index should get. */
  ghost predicate Holds(s: State, g: Flight)
    requires !g.Landed?
  {
    match g.stage
    case Started => true
    case RowRead(row) => DocOf(g.ad, Assemble(row, Lookup(s.db.ads, g.ad))) == Wanted(s, g.ad)
    case Fetched(doc) => doc == Wanted(s, g.ad)
    case Written => Lookup(s.index, g.ad) == Wanted(s, g.ad)
  }

  ghost predicate Converging(s: State, id: AdId) {
    Lookup(s.index, id) == Wanted(s, id) || Awaited(s, id)
  }

  ghost predicate Inv(s: State) {
    && BusInv(s.bus) && |s.bus.published| == |s.db.outbox|
    && (forall f, g :: 0 <= f < g < |s.flights| && !s.flights[f].Landed? && !s.flights[g].Landed? ==>
          s.flights[f].ad != s.flights[g].ad)
    && (forall f :: 0 <= f < |s.flights| ==> FlightInv(s, s.flights[f]))
    && forall id :: Converging(s, id)
  }

  /* Steps */

  lemma SettledKept(b: BusState, b': BusState, e: nat)
    requires |b.copies| <= |b'.copies|
    requires forall c :: 0 <= c < |b.copies| ==>
               b'.copies[c].event == b.copies[c].event && (b.copies[c].fate == Acked <==> b'.copies[c].fate == Acked)
    requires forall c :: |b.copies| <= c < |b'.copies| ==> b'.copies[c].fate != Acked
    ensures Settled(b', e) <==> Settled(b, e)
  {
  }

  /** While the ads, the index and the settled events stay, so does everything said of them. */
  lemma SameView(s: State, s': State)
    requires s'.db == s.db && s'.index == s.index
    requires forall e :: Settled(s'.bus, e) <==> Settled(s.bus, e)
    ensures forall id, e :: OpenEvent(s', id, e) <==> OpenEvent(s, id, e)
    ensures forall id :: Converging(s, id) ==> Converging(s', id)
  {
  }

  lemma FlightKept(s: State, s': State, g: Flight)
    requires FlightInv(s, g) && s'.db == s.db && s'.index == s.index
    requires |s.bus.copies| <= |s'.bus.copies|
    requires forall c :: 0 <= c < |s.bus.copies| ==> s'.bus.copies[c].event == s.bus.copies[c].event
    requires forall id, e :: OpenEvent(s', id, e) <==> OpenEvent(s, id, e)
    ensures FlightInv(s', g)
  {
  }

  /** A write moves what the index should hold only together with a new open event. */
  lemma ChangeStep(s: State, w: Write, s': State, maxDeliver: int)
    requires Inv(s) && Enabled(s, Change(w), maxDeliver) && s' == Apply(s, Change(w), maxDeliver)
    ensures Inv(s')
  {
    var n := |s.db.outbox|;
    ChangesAreAnnounced(s.db, w, 0);
    assert BusInv(s'.bus) by {
      OtherStepsKeepBus(s.bus, s'.bus);
    }
    assert !Settled(s'.bus, n);
    forall id, e | OpenEvent(s, id, e) ensures OpenEvent(s', id, e) {
      SettledKept(s.bus, s'.bus, e);
    }
    forall id ensures Visible(s.db.ads, id) == Visible(s'.db.ads, id) || OpenEvent(s', id, n) {
      ChangesAreAnnounced(s.db, w, id);
    }
    hide Perform;
    hide DocOf;
    hide Settled;
    hide BusInv;
    forall f | 0 <= f < |s'.flights| ensures FlightInv(s', s'.flights[f]) {
      ChangeKeepsFlight(s, s', s.flights[f]);
    }
    forall id ensures Converging(s', id) {
      assert Converging(s, id);
      assert Visible(s.db.ads, id) == Visible(s'.db.ads, id) || OpenEvent(s', id, n);
    }
  }

  lemma ChangeKeepsFlight(s: State, s': State, g: Flight)
    requires FlightInv(s, g) && s'.index == s.index && s'.bus.copies == s.bus.copies
    requires s.db.outbox <= s'.db.outbox
    requires forall id, e :: OpenEvent(s, id, e) ==> OpenEvent(s', id, e)
    requires forall id :: Visible(s.db.ads, id) == Visible(s'.db.ads, id) || OpenEvent(s', id, |s.db.outbox|)
    ensures FlightInv(s', g)
  {
    if !g.Landed? {
      assert Visible(s.db.ads, g.ad) == Visible(s'.db.ads, g.ad) || OpenEvent(s', g.ad, |s.db.outbox|);
    }
  }

  lemma RelayingStep(s: State, step: RelayAction, s': State, maxDeliver: int)
    requires Inv(s) && Enabled(s, Relaying(step), maxDeliver) && s' == Apply(s, Relaying(step), maxDeliver)
    ensures Inv(s')
  {
    RelayStepKeepsBus(s.bus, step, s'.bus);
    forall e ensures Settled(s'.bus, e) <==> Settled(s.bus, e) {
      SettledKept(s.bus, s'.bus, e);
    }
    SameView(s, s');
    forall f | 0 <= f < |s'.flights| ensures FlightInv(s', s'.flights[f]) {
      FlightKept(s, s', s.flights[f]);
    }
  }

  lemma TakeStep(s: State, c: nat, s': State, maxDeliver: int)
    requires Inv(s) && Enabled(s, Take(c), maxDeliver) && Serial(s, Take(c)) && s' == Apply(s, Take(c), maxDeliver)
    ensures Inv(s')
  {
    OtherStepsKeepBus(s.bus, s'.bus);
    forall e ensures Settled(s'.bus, e) <==> Settled(s.bus, e) {
      SettledKept(s.bus, s'.bus, e);
    }
    SameView(s, s');
    forall f | 0 <= f < |s.flights| ensures FlightInv(s', s'.flights[f]) {
      FlightKept(s, s', s.flights[f]);
    }
  }

  /** Reading, crashing and answering another service: the flight holds what is wanted now, and
      nothing else moves. */
  lemma QuietStep(s: State, a: Action, s': State, maxDeliver: int)
    requires Inv(s) && Enabled(s, a, maxDeliver) && Serial(s, a) && s' == Apply(s, a, maxDeliver)
    requires a.Visit? || a.ReadRow? || a.ReadChildren? || a.Crash? || ((a.Acknowledge? || a.Fail?) && s.flights[a.flight].Guest?)
    ensures Inv(s')
  {
    SameView(s, s');
    hide BusInv;
    forall f | 0 <= f < |s'.flights| ensures FlightInv(s', s'.flights[f]) {
      if f < |s.flights| {
        FlightKept(s, s', s.flights[f]);
      }
      if a.ReadRow? && f == a.flight {
        var found := Lookup(s.db.ads, s.flights[f].ad);
        assert Assemble(found, found) == found;
      }
    }
  }

  lemma StoreStep(s: State, f: nat, s': State, maxDeliver: int)
    requires Inv(s) && Enabled(s, Store(f), maxDeliver) && s' == Apply(s, Store(f), maxDeliver)
    ensures Inv(s')
  {
    hide BusInv;
    hide DocOf;
    var g := s.flights[f];
    assert FlightInv(s, g);
    assert forall id :: id != g.ad ==> Lookup(s'.index, id) == Lookup(s.index, id);
    assert Lookup(s'.index, g.ad) == g.stage.doc;
    forall id, e ensures OpenEvent(s', id, e) <==> OpenEvent(s, id, e) {}
    forall id ensures Converging(s', id) {
      assert Converging(s, id);
      if id == g.ad && g.Flight? && AwaitedBesides(s, id, s.bus.copies[g.copy].event) {
        var e :| OpenEvent(s, id, e) && e != s.bus.copies[g.copy].event;
        assert OpenEvent(s', id, e);
      } else if Awaited(s, id) {
        var e :| OpenEvent(s, id, e);
        assert OpenEvent(s', id, e);
      }
    }
    forall k | 0 <= k < |s'.flights| ensures FlightInv(s', s'.flights[k]) {
      StoreKeepsFlight(s, f, s', k);
    }
  }

  lemma StoreKeepsFlight(s: State, f: nat, s': State, k: nat)
    requires f < |s.flights| && k < |s.flights| && !s.flights[f].Landed? && s.flights[f].stage.Fetched?
    requires FlightInv(s, s.flights[k])
    requires !s.flights[k].Landed? && k != f ==> s.flights[k].ad != s.flights[f].ad
    requires s'.db == s.db && s'.bus == s.bus
    requires s'.flights == s.flights[f := s.flights[f].(stage := Written)]
    requires forall id :: id != s.flights[f].ad ==> Lookup(s'.index, id) == Lookup(s.index, id)
    requires Lookup(s'.index, s.flights[f].ad) == s.flights[f].stage.doc
    requires forall id, e :: OpenEvent(s', id, e) <==> OpenEvent(s, id, e)
    ensures FlightInv(s', s'.flights[k])
  {
  }

  lemma AnswerStep(s: State, a: Action, s': State, maxDeliver: int)
    requires Inv(s) && Enabled(s, a, maxDeliver) && s' == Apply(s, a, maxDeliver)
    requires (a.Acknowledge? || a.Fail?) && s.flights[a.flight].Flight?
    ensures Inv(s')
  {
    var g := s.flights[a.flight];
    var r := s.bus.copies[g.copy].event;
    assert FlightInv(s, g);
    OtherStepsKeepBus(s.bus, s'.bus);
    forall e | a.Fail? || e != r ensures Settled(s'.bus, e) <==> Settled(s.bus, e) {
      AnswerSettles(s.bus, g.copy, a.Acknowledge?, g.attempt, maxDeliver, e);
    }
    hide BusInv;
    hide Answer;
    hide Settled;
    if a.Fail? {
      SameView(s, s');
      forall f | 0 <= f < |s'.flights| ensures FlightInv(s', s'.flights[f]) {
        FlightKept(s, s', s.flights[f]);
      }
    } else {
      forall id ensures Converging(s', id) {
        assert Converging(s, id);
        if id == g.ad && AwaitedBesides(s, id, r) {
          var e :| OpenEvent(s, id, e) && e != r;
          assert OpenEvent(s', id, e);
        } else if id != g.ad && Awaited(s, id) {
          var e :| OpenEvent(s, id, e);
          assert OpenEvent(s', id, e);
        }
      }
      forall k | 0 <= k < |s'.flights| ensures FlightInv(s', s'.flights[k]) {
        AckKeepsFlight(s, a.flight, s', k);
      }
    }
  }

  lemma AckKeepsFlight(s: State, f: nat, s': State, k: nat)
    requires f < |s.flights| && k < |s.flights| && s.flights[f].Flight? && FlightInv(s, s.flights[f])
    requires FlightInv(s, s.flights[k])
    requires !s.flights[k].Landed? && k != f ==> s.flights[k].ad != s.flights[f].ad
    requires s'.db == s.db && s'.index == s.index && s'.flights == s.flights[f := Landed]
    requires |s'.bus.copies| == |s.bus.copies|
    requires forall c :: 0 <= c < |s.bus.copies| ==> s'.bus.copies[c].event == s.bus.copies[c].event
    requires forall e :: e != s.bus.copies[s.flights[f].copy].event ==> (Settled(s'.bus, e) <==> Settled(s.bus, e))
    ensures FlightInv(s', s'.flights[k])
  {
    var g := s.flights[k];
    if k != f && g.Flight? && AwaitedBesides(s, g.ad, s.bus.copies[g.copy].event) {
      var e :| OpenEvent(s, g.ad, e) && e != s.bus.copies[g.copy].event;
      assert OpenEvent(s', g.ad, e);
    } else if g.Guest? && Awaited(s, g.ad) {
      var e :| OpenEvent(s, g.ad, e);
      assert OpenEvent(s', g.ad, e);
    }
  }

  lemma AnswerSettles(b: BusState, c: nat, handled: bool, attempt: nat, maxDeliver: int, e: nat)
    requires c < |b.copies| && (e != b.copies[c].event || !handled)
    ensures Settled(Answer(b, c, handled, attempt, maxDeliver), e) <==> Settled(b, e)
  {
    var b' := Answer(b, c, handled, attempt, maxDeliver);
    if d :| 0 <= d < |b.copies| && b.copies[d].event == e && b.copies[d].fate == Acked {
      assert b'.copies[d] == b.copies[d];
    }
    if d :| 0 <= d < |b'.copies| && b'.copies[d].event == e && b'.copies[d].fate == Acked {
      assert b.copies[d] == b'.copies[d];
    }
  }

  lemma StepKeepsInv(s: State, a: Action, s': State, maxDeliver: int)
    requires Inv(s) && Enabled(s, a, maxDeliver) && Serial(s, a) && s' == Apply(s, a, maxDeliver)
    ensures Inv(s')
  {
    match a
    case Change(w) => ChangeStep(s, w, s', maxDeliver);
    case Relaying(step) => RelayingStep(s, step, s', maxDeliver);
    case Take(c) => TakeStep(s, c, s', maxDeliver);
    case Store(f) => StoreStep(s, f, s', maxDeliver);
    case Acknowledge(f) =>
      if s.flights[f].Flight? { AnswerStep(s, a, s', maxDeliver); } else { QuietStep(s, a, s', maxDeliver); }
    case Fail(f) =>
      if s.flights[f].Flight? { AnswerStep(s, a, s', maxDeliver); } else { QuietStep(s, a, s', maxDeliver); }
    case _ => QuietStep(s, a, s', maxDeliver);
  }

  lemma {:induction false} RunKeepsInv(states: seq<State>, actions: seq<Action>, maxDeliver: int, i: nat)
    requires SerialRun(states, actions, maxDeliver) && i < |states|
    ensures Inv(states[i])
  {
    if i > 0 {
      RunKeepsInv(states, actions, maxDeliver, i - 1);
      StepKeepsInv(states[i - 1], actions[i - 1], states[i], maxDeliver);
    }
  }

  /** The event is not marked published, or has a message that may still be delivered. */
  ghost predicate Coming(s: State, e: nat, maxDeliver: int) {
    && e < |s.bus.published|
    && (!s.bus.published[e] || exists c :: 0 <= c < |s.bus.copies| && s.bus.copies[c].event == e && CanDeliver(s.bus, c, maxDeliver))
  }

  /** The event has a message that will not be: dead-lettered, or out of deliveries without an answer. */
  ghost predicate GivenUp(s: State, e: nat, maxDeliver: int) {
    exists c :: 0 <= c < |s.bus.copies| && s.bus.copies[c].event == e && s.bus.copies[c].fate != Acked && !CanDeliver(s.bus, c, maxDeliver)
  }

  /** At any moment, an ad's entry in the index is right, or an event about the ad, never handled
      to the end, is still to be published or delivered, or has been given up. */
  lemma WrongOnlyWhileAwaited(states: seq<State>, actions: seq<Action>, maxDeliver: int, i: nat, id: AdId)
    requires SerialRun(states, actions, maxDeliver) && i < |states|
    requires Lookup(states[i].index, id) != Wanted(states[i], id)
    ensures exists e :: OpenEvent(states[i], id, e) && (Coming(states[i], e, maxDeliver) || GivenUp(states[i], e, maxDeliver))
  {
    RunKeepsInv(states, actions, maxDeliver, i);
    var s := states[i];
    assert Converging(s, id) && Awaited(s, id);
    var e: nat :| OpenEvent(s, id, e);
    assert e < |s.db.outbox| == |s.bus.published|;
    if s.bus.published[e] {
      assert InStream(s.bus, e);
      var c :| 0 <= c < |s.bus.copies| && s.bus.copies[c].event == e;
      assert s.bus.copies[c].fate != Acked;
    }
  }

  /** With everything published and acknowledged, and nothing given up, the index is exactly
      the active ads. */
  lemma DrainedIsTrue(states: seq<State>, actions: seq<Action>, maxDeliver: int, i: nat)
    requires SerialRun(states, actions, maxDeliver) && i < |states|
    requires Drained(states[i].bus)
    ensures states[i].index == Truth(states[i].db.ads)
  {
    RunKeepsInv(states, actions, maxDeliver, i);
    var s := states[i];
    forall id ensures Lookup(s.index, id) == Lookup(Truth(s.db.ads), id) {
      assert Converging(s, id);
      if Awaited(s, id) {
        var e :| OpenEvent(s, id, e);
        DrainedIsSettled(s.bus, e);
      }
    }
    SameEntries(s.index, Truth(s.db.ads));
  }

  /** Then the index has an entry for exactly the active ads, and each shows its ad. */
  lemma DrainedShows(states: seq<State>, actions: seq<Action>, maxDeliver: int, i: nat, id: AdId)
    requires SerialRun(states, actions, maxDeliver) && i < |states|
    requires Drained(states[i].bus)
    ensures var s := states[i];
            && (id in s.index <==> id in s.db.ads && s.db.ads[id].status == Active)
            && (id in s.index ==> Shows(s.index[id], id, s.db.ads[id]))
  {
    DrainedIsTrue(states, actions, maxDeliver, i);
    if id in states[i].db.ads {
      BuildDocShows(id, states[i].db.ads[id]);
    }
    hide BuildDoc;
    hide Shows;
    hide SerialRun;
  }

  lemma StepKeepsBus(s: State, a: Action, s': State, maxDeliver: int)
    requires BusInv(s.bus) && |s.bus.published| == |s.db.outbox|
    requires Enabled(s, a, maxDeliver) && s' == Apply(s, a, maxDeliver)
    ensures BusInv(s'.bus) && |s'.bus.published| == |s'.db.outbox|
  {
    if a.Relaying? {
      RelayStepKeepsBus(s.bus, a.step, s'.bus);
    } else {
      if a.Change? {
        ChangesAreAnnounced(s.db, a.write, 0);
      }
      OtherStepsKeepBus(s.bus, s'.bus);
    }
    hide BusInv;
    hide Perform;
    hide RelayStep;
  }

  lemma {:induction false} RunKeepsBus(states: seq<State>, actions: seq<Action>, maxDeliver: int, i: nat)
    requires Run(states, actions, maxDeliver) && i < |states|
    ensures BusInv(states[i].bus) && |states[i].bus.published| == |states[i].db.outbox|
  {
    if i > 0 {
      RunKeepsBus(states, actions, maxDeliver, i - 1);
      StepKeepsBus(states[i - 1], actions[i - 1], states[i], maxDeliver);
      hide BusInv;
    }
  }

  /** In every run, serial or not: a row marked published has its event in the stream, and no
      row is in the hands of two relays. */
  lemma MarkedMeansInStream(states: seq<State>, actions: seq<Action>, maxDeliver: int, i: nat, e: nat)
    requires Run(states, actions, maxDeliver) && i < |states|
    ensures var b := states[i].bus;
            && (e < |b.published| && b.published[e] ==> exists c :: 0 <= c < |b.copies| && b.copies[c].event == e)
            && (forall j, k :: 0 <= j < k < |b.relays| && b.relays[j].Passing? && b.relays[k].Passing? ==>
                  !(e in b.relays[j].picked && e in b.relays[k].picked))
  {
    RunKeepsBus(states, actions, maxDeliver, i);
    if e < |states[i].bus.published| && states[i].bus.published[e] {
      assert InStream(states[i].bus, e);
    }
  }
}
