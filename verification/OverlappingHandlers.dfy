/**
 Why the indexer needs one handler of an ad at a time: two at once leave a deleted ad in
 the index for good, with every event acknowledged.
 */
module OverlappingHandlers {
  import opened Collections
  import opened Listing
  import opened SearchIndex
  import opened Bus
  import opened BusRuns
  import opened Indexing
  import ListingRuns
  import ListingService

  const DRAFT: Ad := Ad(1, "c", "title", "", 0, "UZS", 1, None, None, None, Draft, true,
                        None, None, None, false, 0, None, 0, 0, [], [])
  const WAITING: Ad := DRAFT.(status := Status.Pending)
  const SHOWN: Ad := DRAFT.(status := Active, publishedAt := Some(0), expiresAt := Some(10))
  const MADE: AdEvent := AdEvent(AdCreated, 1, Draft, "title")
  const SENT: AdEvent := AdEvent(AdUpdated, 1, Status.Pending, "title")
  const SHOWS: AdEvent := AdEvent(AdUpdated, 1, Active, "title")
  const GONE: AdEvent := AdEvent(AdDeleted, 1, Active, "title")

  const SUBMIT: Write := Transition(1, StatusUpdate(Draft, Status.Pending, None, None), SENT)
  const APPROVE: Write := ApplyModeration(0, 1, StatusUpdate(Status.Pending, Active, Some(0), Some(10)), SHOWS)

  /** A stretch of a run: what was done, and the states it went through. */
  datatype Stretch = Stretch(states: seq<State>, actions: seq<Action>)

  ghost predicate Follows(r: Stretch, from: State, to: State) {
    && |r.states| == |r.actions| + 1 && r.states[0] == from && r.states[|r.actions|] == to
    && forall i {:trigger r.actions[i]} :: 0 <= i < |r.actions| ==> Step(r.states[i], r.actions[i], r.states[i + 1])
  }

  /** A step of a run, writing to ads only what the listing service plans. */
  ghost predicate Step(s: State, a: Action, s': State) {
    Enabled(s, a, 5) && s' == Apply(s, a, 5) && (a.Change? ==> ListingRuns.PlannedNow(s.db, a.write, 10))
  }

  lemma One(s: State, a: Action, s': State) returns (r: Stretch)
    requires Step(s, a, s')
    ensures Follows(r, s, s')
  {
    r := Stretch([s, s'], [a]);
  }

  lemma Chain(q: Stretch, r: Stretch, from: State, via: State, to: State) returns (all: Stretch)
    requires Follows(q, from, via) && Follows(r, via, to)
    ensures Follows(all, from, to)
  {
    hide Step;
    all := Stretch(q.states + r.states[1..], q.actions + r.actions);
    forall i | 0 <= i < |all.actions| ensures Step(all.states[i], all.actions[i], all.states[i + 1]) {
      if i < |q.actions| {
        assert all.actions[i] == q.actions[i] && all.states[i] == q.states[i] && all.states[i + 1] == q.states[i + 1];
      } else {
        var j := i - |q.actions|;
        assert all.actions[i] == r.actions[j] && all.states[i] == r.states[j] && all.states[i + 1] == r.states[j + 1];
      }
    }
  }

  const LATE: Flight := Flight(0, 1, 1, Fetched(Some(BuildDoc(1, SHOWN))))

  /** The first handler fetched the ad while it was on show and stores it after the owner has
      deleted it and later handlers have removed it. Every event is acknowledged; the index is wrong.
      The ad was drafted, submitted, approved and deleted by writes the listing service plans. */
  lemma OverlappingHandlersDiverge() returns (r: Stretch, last: State)
    ensures Follows(r, INIT, last) && Run(r.states, r.actions, 5)
    ensures forall i {:trigger r.actions[i]} :: 0 <= i < |r.actions| && r.actions[i].Change? ==>
              ListingRuns.PlannedNow(r.states[i].db, r.actions[i].write, 10)
    ensures Drained(last.bus) && 1 in last.index && 1 !in last.db.ads
  {
    hide Follows;
    var q, s1 := Announced();
    var p, s2 := PublishThree(s1);
    r := Chain(q, p, INIT, s1, s2);
    var s3, s4, s5, s6, s7: State;
    q, s3 := Fetch(s2);
    r := Chain(r, q, INIT, s2, s3);
    q, s4 := DeleteAndPublish(s3);
    r := Chain(r, q, INIT, s3, s4);
    q, s5 := HandleGone(s4, 1);
    r := Chain(r, q, INIT, s4, s5);
    q, s6 := HandleGone(s5, 2);
    r := Chain(r, q, INIT, s5, s6);
    q, s7 := HandleGone(s6, 3);
    r := Chain(r, q, INIT, s6, s7);
    q, last := StoreLate(s7);
    r := Chain(r, q, INIT, s7, last);
    IsRun(r, last);
  }

  lemma IsRun(r: Stretch, last: State)
    requires Follows(r, INIT, last)
    ensures Run(r.states, r.actions, 5)
    ensures forall i {:trigger r.actions[i]} :: 0 <= i < |r.actions| && r.actions[i].Change? ==>
              ListingRuns.PlannedNow(r.states[i].db, r.actions[i].write, 10)
  {
  }

  /** Drafted, submitted and approved, with one relay waiting. */
  lemma Announced() returns (r: Stretch, s: State)
    ensures Follows(r, INIT, s)
    ensures s == State(Db(map[1 := SHOWN], {0}, [MADE, SENT, SHOWS]), BusState([false, false, false], [Idle], []), map[], [])
  {
    var s1 := State(Db(map[1 := DRAFT], {}, [MADE]), BusState([false], [], []), map[], []);
    var s2 := State(Db(map[1 := WAITING], {}, [MADE, SENT]), BusState([false, false], [], []), map[], []);
    var s3 := State(Db(map[1 := SHOWN], {0}, [MADE, SENT, SHOWS]), BusState([false, false, false], [], []), map[], []);
    s := s3.(bus := s3.bus.(relays := [Idle]));
    Drafted(s1);
    Sent(s1, s2);
    Approved(s2, s3);
    assert Step(s3, Relaying(StartRelay), s);
    hide Step;
    r := Stretch([INIT, s1, s2, s3, s], [Change(Create(1, DRAFT, MADE)), Change(SUBMIT), Change(APPROVE), Relaying(StartRelay)]);
  }

  lemma Drafted(s1: State)
    requires s1 == State(Db(map[1 := DRAFT], {}, [MADE]), BusState([false], [], []), map[], [])
    ensures Step(INIT, Change(Create(1, DRAFT, MADE)), s1)
  {
  }

  lemma Sent(s1: State, s2: State)
    requires s1 == State(Db(map[1 := DRAFT], {}, [MADE]), BusState([false], [], []), map[], [])
    requires s2 == State(Db(map[1 := WAITING], {}, [MADE, SENT]), BusState([false, false], [], []), map[], [])
    ensures Step(s1, Change(SUBMIT), s2)
  {
    assert ListingRuns.PlanOf(1, DRAFT, ListingRuns.Owner(ListingService.Submit, 1), 10) == Some(SUBMIT);
  }

  lemma Approved(s2: State, s3: State)
    requires s2 == State(Db(map[1 := WAITING], {}, [MADE, SENT]), BusState([false, false], [], []), map[], [])
    requires s3 == State(Db(map[1 := SHOWN], {0}, [MADE, SENT, SHOWS]), BusState([false, false, false], [], []), map[], [])
    ensures Step(s2, Change(APPROVE), s3)
  {
    assert ListingRuns.PlanOf(1, WAITING, ListingRuns.Moderator(ListingService.Approve, 0, 0), 10) == Some(APPROVE);
  }

  const READY: seq<Copy> := [Copy(0, Unanswered, 0), Copy(1, Unanswered, 0), Copy(2, Unanswered, 0)]

  lemma PicksThree(b: BusState)
    requires b == BusState([false, false, false], [Idle], [])
    ensures PickOpen(b, 3, 10) == [0, 1, 2]
  {
    assert PickOpen(b, 0, 10) == [];
    assert PickOpen(b, 1, 10) == [0];
    assert PickOpen(b, 2, 10) == [0, 1];
  }

  /** Sends the next of the picked rows. */
  lemma PublishNext(s: State, picked: seq<nat>, k: nat) returns (r: Stretch, s': State)
    requires k < |picked| && s.bus.relays == [Passing(picked, k, picked[..k])]
    ensures s' == s.(bus := s.bus.(relays := [Passing(picked, k + 1, picked[..k + 1])],
                                   copies := s.bus.copies + [Copy(picked[k], Unanswered, 0)]))
    ensures Follows(r, s, s')
  {
    s' := Apply(s, Relaying(Publish(0, Accepted, false)), 5);
    assert picked[..k + 1] == picked[..k] + [picked[k]];
    r := One(s, Relaying(Publish(0, Accepted, false)), s');
  }

  lemma BeginPass(s: State, picked: seq<nat>) returns (r: Stretch, s': State)
    requires s.bus.relays == [Idle] && PickOpen(s.bus, |s.bus.published|, 10) == picked
    ensures Follows(r, s, s') && s' == s.(bus := s.bus.(relays := [Passing(picked, 0, picked[..0])]))
  {
    hide PickOpen;
    s' := s.(bus := s.bus.(relays := [Passing(picked, 0, picked[..0])]));
    r := One(s, Relaying(Begin(0, 10)), s');
  }

  lemma CommitPass(s: State, picked: seq<nat>) returns (r: Stretch, s': State)
    requires s.bus.relays == [Passing(picked, |picked|, picked[..|picked|])]
    requires forall e :: 0 <= e < |s.bus.published| ==> s.bus.published[e] || e in picked
    ensures Follows(r, s, s')
    ensures s' == s.(bus := s.bus.(published := seq(|s.bus.published|, _ => true), relays := [Idle]))
  {
    assert picked[..|picked|] == picked;
    s' := s.(bus := s.bus.(published := seq(|s.bus.published|, _ => true), relays := [Idle]));
    assert RelayStep(s.bus, Commit(0)).published == s'.bus.published;
    r := One(s, Relaying(Commit(0)), s');
  }

  lemma PublishThree(s: State) returns (r: Stretch, s': State)
    requires s.bus == BusState([false, false, false], [Idle], [])
    ensures Follows(r, s, s') && s' == s.(bus := BusState([true, true, true], [Idle], READY))
  {
    hide Follows;
    PicksThree(s.bus);
    hide PickOpen;
    var s1, s2, s3, s4: State;
    var q: Stretch;
    r, s1 := BeginPass(s, [0, 1, 2]);
    q, s2 := PublishNext(s1, [0, 1, 2], 0);
    r := Chain(r, q, s, s1, s2);
    q, s3 := PublishNext(s2, [0, 1, 2], 1);
    r := Chain(r, q, s, s2, s3);
    q, s4 := PublishNext(s3, [0, 1, 2], 2);
    r := Chain(r, q, s, s3, s4);
    q, s' := CommitPass(s4, [0, 1, 2]);
    r := Chain(r, q, s, s4, s');
    assert s'.bus == BusState([true, true, true], [Idle], READY);
  }

  /** The first event's handler reads the ad on show, and is then held up. */
  lemma Fetch(s: State) returns (r: Stretch, s': State)
    requires s == State(Db(map[1 := SHOWN], {0}, [MADE, SENT, SHOWS]), BusState([true, true, true], [Idle], READY), map[], [])
    ensures Follows(r, s, s')
    ensures s' == s.(bus := s.bus.(copies := READY[0 := Copy(0, Unanswered, 1)]), flights := [LATE])
  {
    hide BuildDoc;
    var bus := s.bus.(copies := READY[0 := Copy(0, Unanswered, 1)]);
    var s1 := s.(bus := bus, flights := [Flight(0, 1, 1, Started)]);
    var s2 := s.(bus := bus, flights := [Flight(0, 1, 1, RowRead(Some(SHOWN)))]);
    s' := s.(bus := bus, flights := [LATE]);
    assert Step(s, Take(0), s1);
    assert Step(s1, ReadRow(0), s2);
    assert Assemble(Some(SHOWN), Some(SHOWN)) == Some(SHOWN);
    assert Step(s2, ReadChildren(0), s');
    hide Step;
    r := Stretch([s, s1, s2, s'], [Take(0), ReadRow(0), ReadChildren(0)]);
  }

  lemma PicksLast(b: BusState)
    requires b.published == [true, true, true, false] && b.relays == [Idle]
    ensures PickOpen(b, 4, 10) == [3]
  {
    assert PickOpen(b, 0, 10) == [];
    assert PickOpen(b, 1, 10) == [];
    assert PickOpen(b, 2, 10) == [];
    assert PickOpen(b, 3, 10) == [];
  }

  /** The owner deletes the ad, and the relay passes that on. */
  lemma DeleteAndPublish(s: State) returns (r: Stretch, s': State)
    requires s.db == Db(map[1 := SHOWN], {0}, [MADE, SENT, SHOWS]) && s.bus.published == [true, true, true] && s.bus.relays == [Idle]
    ensures Follows(r, s, s')
    ensures s' == s.(db := Db(map[], {0}, [MADE, SENT, SHOWS, GONE]),
                     bus := BusState([true, true, true, true], [Idle], s.bus.copies + [Copy(3, Unanswered, 0)]))
  {
    hide Follows;
    hide Step;
    var s1 := s.(db := Db(map[], {0}, [MADE, SENT, SHOWS, GONE]), bus := s.bus.(published := [true, true, true, false]));
    Deleted(s, s1);
    r := One(s, Change(Delete(1, GONE)), s1);
    PicksLast(s1.bus);
    hide PickOpen;
    var s2, s3: State;
    var q: Stretch;
    q, s2 := BeginPass(s1, [3]);
    r := Chain(r, q, s, s1, s2);
    q, s3 := PublishNext(s2, [3], 0);
    r := Chain(r, q, s, s2, s3);
    q, s' := CommitPass(s3, [3]);
    r := Chain(r, q, s, s3, s');
    assert s'.bus.published == [true, true, true, true];
  }

  lemma Deleted(s: State, s': State)
    requires s.db == Db(map[1 := SHOWN], {0}, [MADE, SENT, SHOWS]) && s.bus.published == [true, true, true]
    requires s' == s.(db := Db(map[], {0}, [MADE, SENT, SHOWS, GONE]), bus := s.bus.(published := [true, true, true, false]))
    ensures Step(s, Change(Delete(1, GONE)), s')
  {
    assert ListingRuns.PlanOf(1, SHOWN, ListingRuns.Owner(ListingService.Remove, 1), 10) == Some(Delete(1, GONE));
  }

  /** A handler that finds the ad gone, from its first delivery to its acknowledgement. */
  lemma HandleGone(s: State, c: nat) returns (r: Stretch, s': State)
    requires s.db.ads == map[] && s.index == map[] && c < |s.bus.copies| && c < |s.db.outbox|
    requires s.bus.copies[c] == Copy(c, Unanswered, 0) && s.db.outbox[c].adId == 1
    ensures Follows(r, s, s')
    ensures s' == s.(bus := s.bus.(copies := s.bus.copies[c := Copy(c, Acked, 1)]), flights := s.flights + [Landed])
  {
    var f := |s.flights|;
    var bus := s.bus.(copies := s.bus.copies[c := Copy(c, Unanswered, 1)]);
    var s1 := s.(bus := bus, flights := s.flights + [Flight(c, 1, 1, Started)]);
    var s2 := s.(bus := bus, flights := s.flights + [Flight(c, 1, 1, RowRead(None))]);
    var s3 := s.(bus := bus, flights := s.flights + [Flight(c, 1, 1, Fetched(None))]);
    var s4 := s.(bus := bus, flights := s.flights + [Flight(c, 1, 1, Written)]);
    s' := s.(bus := s.bus.(copies := s.bus.copies[c := Copy(c, Acked, 1)]), flights := s.flights + [Landed]);
    assert Step(s, Take(c), s1);
    assert Step(s1, ReadRow(f), s2);
    assert Step(s2, ReadChildren(f), s3);
    assert Step(s3, Store(f), s4);
    assert Step(s4, Acknowledge(f), s');
    hide Step;
    r := Stretch([s, s1, s2, s3, s4, s'], [Take(c), ReadRow(f), ReadChildren(f), Store(f), Acknowledge(f)]);
  }

  lemma StoreLate(s: State) returns (r: Stretch, s': State)
    requires |s.bus.copies| == 4 && |s.flights| > 0 && s.flights[0] == LATE && s.bus.copies[0] == Copy(0, Unanswered, 1)
    requires forall c :: 0 < c < 4 ==> s.bus.copies[c].fate == Acked
    requires s.bus.published == [true, true, true, true] && s.db.ads == map[]
    ensures Follows(r, s, s')
    ensures Drained(s'.bus) && 1 in s'.index && 1 !in s'.db.ads
  {
    hide BuildDoc;
    var s1 := Apply(s, Store(0), 5);
    s' := Apply(s1, Acknowledge(0), 5);
    r := Stretch([s, s1, s'], [Store(0), Acknowledge(0)]);
  }
}
