/**
 Why a moderation decision needs one handler at a time: the inbox is read outside the
 transaction that writes it, so a message delivered again while its first handler runs
 can be applied twice.
 */
module OverlappingDecisions {
  import opened Collections
  import opened Listing
  import opened Bus
  import opened BusRuns
  import opened Moderation
  import ListingRuns
  import ListingService

  const DRAFT: Ad := Ad(1, "c", "title", "", 0, "UZS", 1, None, None, None, Draft, true,
                        None, None, None, false, 0, None, 0, 0, [], [])
  const WAITING: Ad := DRAFT.(status := Status.Pending)
  const SHOWN: Ad := DRAFT.(status := Active, publishedAt := Some(0), expiresAt := Some(10))
  const AGAIN: Ad := SHOWN.(status := Status.Pending)
  const MADE: AdEvent := AdEvent(AdCreated, 1, Draft, "title")
  const NEWS: AdEvent := AdEvent(AdUpdated, 1, Status.Pending, "title")
  const APPROVED: AdEvent := AdEvent(AdUpdated, 1, Active, "title")

  /** The owner's submission of the ad from the status it is in. */
  function Submission(from: Status): Write {
    Transition(1, StatusUpdate(from, Status.Pending, None, None), NEWS)
  }

  /** One approval is delivered twice; between the two applications the owner has submitted the
      ad for moderation again. */
  function Script(i: nat): Action {
    match i
    case 0 => Elsewhere(Create(1, DRAFT, MADE))
    case 1 => Elsewhere(Submission(Draft))
    case 2 => Decide(ListingService.Approve, 1)
    case 3 => Relaying(StartRelay)
    case 4 => Relaying(Begin(0, 10))
    case 5 => Relaying(Publish(0, Accepted, false))
    case 6 => Take(0)
    case 7 => Take(0)
    case 8 => Check(0)
    case 9 => Check(1)
    case 10 => ReadAd(0, 0)
    case 11 => Action.Commit(0)
    case 12 => Elsewhere(Submission(Active))
    case 13 => ReadAd(1, 0)
    case _ => Action.Commit(1)
  }

  ghost predicate Step(s: State, i: nat, s': State) {
    && Enabled(s, Script(i), 5) && s' == Apply(s, Script(i), 10, 5)
    && (Script(i).Elsewhere? ==> ListingRuns.PlannedNow(s.db, Script(i).write, 10))
  }

  /** All of it written as the listing service plans it. */
  lemma OneApprovalAppliedTwice() returns (states: seq<State>, actions: seq<Action>)
    ensures Run(states, actions, 10, 5) && |actions| == 15
    ensures forall i {:trigger actions[i]} :: 0 <= i < 15 && actions[i].Elsewhere? ==>
              ListingRuns.PlannedNow(states[i].db, actions[i].write, 10)
    ensures states[15].effects == [0, 0] && |states[15].decisions| == 1
  {
    hide Step;
    var s1, s2 := Submitted();
    var s3, s4 := Begun(s2);
    var s5, s6 := Sent(s4);
    var s7, s8, s9, s10 := BothChecked(s6);
    var s11, s12 := FirstApplied(s10);
    var s13, s14, s15 := SecondApplied(s12);
    states := [INIT, s1, s2, s3, s4, s5, s6, s7, s8, s9, s10, s11, s12, s13, s14, s15];
    actions := seq(15, i requires 0 <= i < 15 => Script(i));
    forall i {:trigger actions[i]} | 0 <= i < 15
      ensures Enabled(states[i], actions[i], 5) && states[i + 1] == Apply(states[i], actions[i], 10, 5)
      ensures actions[i].Elsewhere? ==> ListingRuns.PlannedNow(states[i].db, actions[i].write, 10)
    {
      assert Step(states[i], i, states[i + 1]);
      Unfold(states[i], i, states[i + 1]);
      hide Apply;
      hide Enabled;
    }
  }

  lemma Unfold(s: State, i: nat, s': State)
    requires Step(s, i, s')
    ensures Enabled(s, Script(i), 5) && s' == Apply(s, Script(i), 10, 5)
    ensures Script(i).Elsewhere? ==> ListingRuns.PlannedNow(s.db, Script(i).write, 10)
  {
  }

  lemma Submitted() returns (s1: State, s2: State)
    ensures Step(INIT, 0, s1) && Step(s1, 1, s2)
    ensures s2 == State([], EMPTY_BUS, Db(map[1 := WAITING], {}, [MADE, NEWS]), [], [])
  {
    s1 := Apply(INIT, Script(0), 10, 5);
    assert ListingRuns.PlanOf(1, DRAFT, ListingRuns.Owner(ListingService.Submit, 1), 10) == Some(Submission(Draft));
    s2 := Apply(s1, Script(1), 10, 5);
  }

  lemma Begun(s2: State) returns (s3: State, s4: State)
    requires s2.decisions == [] && s2.bus == EMPTY_BUS
    ensures Step(s2, 2, s3) && Step(s3, 3, s4)
    ensures s4 == s2.(decisions := [Decided(ListingService.Approve, 1)], bus := BusState([false], [Idle], []))
  {
    s3 := Apply(s2, Script(2), 10, 5);
    s4 := Apply(s3, Script(3), 10, 5);
  }

  lemma PicksIt(b: BusState)
    requires b == BusState([false], [Idle], [])
    ensures PickOpen(b, 1, 10) == [0]
  {
  }

  lemma Sent(s4: State) returns (s5: State, s6: State)
    requires s4.bus == BusState([false], [Idle], [])
    ensures Step(s4, 4, s5) && Step(s5, 5, s6)
    ensures s6 == s4.(bus := BusState([false], [Passing([0], 1, [0])], [Copy(0, Unanswered, 0)]))
  {
    PicksIt(s4.bus);
    hide PickOpen;
    s5 := s4.(bus := BusState([false], [Passing([0], 0, [])], []));
    assert Step(s4, 4, s5);
    s6 := s4.(bus := BusState([false], [Passing([0], 1, [0])], [Copy(0, Unanswered, 0)]));
    assert RelayStep(s5.bus, Publish(0, Accepted, false)) == s6.bus;
  }

  lemma BothChecked(s6: State) returns (s7: State, s8: State, s9: State, s10: State)
    requires |s6.decisions| == 1 && s6.db.processed == {} && s6.flights == []
    requires s6.bus.copies == [Copy(0, Unanswered, 0)]
    ensures Step(s6, 6, s7) && Step(s7, 7, s8) && Step(s8, 8, s9) && Step(s9, 9, s10)
    ensures s10 == s6.(bus := s6.bus.(copies := [Copy(0, Unanswered, 2)]),
                       flights := [Flight(0, 1, 0, Checked), Flight(0, 2, 0, Checked)])
  {
    s7 := Apply(s6, Script(6), 10, 5);
    s8 := Apply(s7, Script(7), 10, 5);
    s9 := Apply(s8, Script(8), 10, 5);
    s10 := Apply(s9, Script(9), 10, 5);
  }

  function Approval(): Write {
    ApplyModeration(0, 1, StatusUpdate(Status.Pending, Active, Some(0), Some(10)), APPROVED)
  }

  lemma ApprovalIsPlanned(db: Db)
    requires GetByID(db, 1) == Ok(WAITING) || GetByID(db, 1) == Ok(AGAIN)
    ensures ListingService.ModerationWrite(ListingService.Approve, 0, 1, GetByID(db, 1), 0, 10) == Approval()
  {
  }

  lemma FirstApplied(s10: State) returns (s11: State, s12: State)
    requires s10.decisions == [Decided(ListingService.Approve, 1)] && s10.effects == []
    requires s10.db == Db(map[1 := WAITING], {}, [MADE, NEWS]) && s10.bus.copies == [Copy(0, Unanswered, 2)]
    requires s10.flights == [Flight(0, 1, 0, Checked), Flight(0, 2, 0, Checked)]
    ensures Step(s10, 10, s11) && Step(s11, 11, s12)
    ensures s12 == s10.(db := Db(map[1 := SHOWN], {0}, [MADE, NEWS, APPROVED]),
                        flights := [Flight(0, 1, 0, Done), Flight(0, 2, 0, Checked)], effects := [0])
  {
    ApprovalIsPlanned(s10.db);
    hide ListingService.ModerationWrite;
    s11 := Apply(s10, Script(10), 10, 5);
    s12 := Apply(s11, Script(11), 10, 5);
  }

  lemma PlannedAgain()
    ensures ListingRuns.PlanOf(1, SHOWN, ListingRuns.Owner(ListingService.Submit, 1), 10) == Some(Submission(Active))
  {
  }

  lemma SecondApplied(s12: State) returns (s13: State, s14: State, s15: State)
    requires s12.decisions == [Decided(ListingService.Approve, 1)] && s12.effects == [0]
    requires s12.db == Db(map[1 := SHOWN], {0}, [MADE, NEWS, APPROVED]) && s12.bus.copies == [Copy(0, Unanswered, 2)]
    requires s12.flights == [Flight(0, 1, 0, Done), Flight(0, 2, 0, Checked)]
    ensures Step(s12, 12, s13) && Step(s13, 13, s14) && Step(s14, 14, s15)
    ensures s15.effects == [0, 0] && s15.decisions == s12.decisions
  {
    PlannedAgain();
    s13 := Apply(s12, Script(12), 10, 5);
    assert s13.db.ads[1] == AGAIN;
    ApprovalIsPlanned(s13.db);
    hide ListingService.ModerationWrite;
    s14 := Apply(s13, Script(13), 10, 5);
    s15 := Apply(s14, Script(14), 10, 5);
  }
}
