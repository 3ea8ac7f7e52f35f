/**
 Paid time in the runs of the payments service: what PaidTime proves of one row under a
 sequence of freezes and thaws holds of every row of every serial run whose clock does not go
 back (services/payments/internal/app/lifecycle.go, services/payments/internal/repo/ad_promotion.go:100-140).
 */
module PaidTimeRuns {
  import opened Clock
  import opened Collections
  import opened RefundArithmetic
  import opened PaymentsDb
  import opened PaymentsRuns
  import opened PaidTime

  /** The clock a lifecycle step reads. */
  function TimeOf(a: Action): Option<Time> {
    match a
    case SuspendAd(_, now) => Some(now)
    case ReadForRefund(_, now, _) => Some(now)
    case ReadForResume(_, _, now) => Some(now)
    case _ => None
  }

  /** From step `i` on, no clock reads less than `t`. */
  ghost predicate NotBefore(actions: seq<Action>, i: nat, t: Time) {
    forall j {:trigger actions[j]} :: i <= j < |actions| && TimeOf(actions[j]).Some? ==> t <= TimeOf(actions[j]).value
  }

  /** From step `from` on the clock starts at `start` and does not go back. */
  ghost predicate ClockRuns(actions: seq<Action>, from: nat, start: Time) {
    && NotBefore(actions, from, start)
    && forall i {:trigger actions[i]} :: from <= i < |actions| && TimeOf(actions[i]).Some? ==>
         NotBefore(actions, i, TimeOf(actions[i]).value)
  }

  /** What a step does to the time of the `r`-th row: freezes it, thaws it, or nothing. */
  function EventOf(s: State, a: Action, r: nat): seq<Freeze> {
    if r >= |s.db.promotions| then []
    else
      var p := s.db.promotions[r];
      if a.SuspendAd? && a.ad == p.adId && p.status.Active? then [Freeze(a.now)]
      else if a.WriteResume? && a.handler < |s.handlers| && s.handlers[a.handler].Resuming?
              && s.handlers[a.handler].ad == p.adId && p.status.Suspended? then [Thaw(s.handlers[a.handler].now)]
      else []
  }

  /** The freezes and thaws of the `r`-th row between two states of a run. */
  ghost function Events(states: seq<State>, actions: seq<Action>, r: nat, from: nat, i: nat): seq<Freeze>
    requires from <= i < |states| == |actions| + 1
  {
    if i == from then [] else Events(states, actions, r, from, i - 1) + EventOf(states[i - 1], actions[i - 1], r)
  }

  /** A step closes a row, or moves it by the step's own event. */
  lemma StepMovesRow(owner: AdId -> UserId, s: State, a: Action, s': State, r: nat)
    requires Enabled(owner, s, a) && s' == Apply(owner, s, a) && r < |s.db.promotions|
    ensures r < |s'.db.promotions|
    ensures var p, q, e := s.db.promotions[r], s'.db.promotions[r], EventOf(s, a, r);
            || (q.status.Refunded? && e == [])
            || (e == [] && q == p)
            || (|e| == 1 && q == Step(p, e[0]))
  {
  }

  /** Handlers about to thaw the ad read their clock at `t` or later, and no step to come reads an earlier one. */
  ghost predicate ThawsLater(s: State, actions: seq<Action>, i: nat, ad: AdId, t: Time) {
    forall h :: 0 <= h < |s.handlers| && s.handlers[h].Resuming? && s.handlers[h].ad == ad ==>
      t <= s.handlers[h].now && NotBefore(actions, i, s.handlers[h].now)
  }

  /** The row is what its events made of it, in the order of the clock, unless it was closed. */
  ghost predicate Tracked(s: State, actions: seq<Action>, i: nat, r: nat, p: AdPromotion, start: Time, run: seq<Freeze>) {
    && r < |s.db.promotions|
    && s.db.promotions[r].adId == p.adId
    && ClockForward(start, run) && NotBefore(actions, i, LastTime(start, run))
    && (!s.db.promotions[r].status.Refunded? ==> s.db.promotions[r] == After(p, run))
    && (s.db.promotions[r].status.Suspended? ==> ThawsLater(s, actions, i, p.adId, LastTime(start, run)))
  }

  lemma OneMoreEvent(p: AdPromotion, start: Time, run: seq<Freeze>, e: Freeze)
    ensures After(p, run + [e]) == Step(After(p, run), e)
    ensures LastTime(start, run + [e]) == e.at
    ensures ClockForward(start, run + [e]) <==> ClockForward(start, run) && LastTime(start, run) <= e.at
  {
    assert (run + [e])[..|run|] == run;
  }

  lemma NotBeforeLater(actions: seq<Action>, i: nat, j: nat, t: Time)
    requires NotBefore(actions, i, t) && i <= j
    ensures NotBefore(actions, j, t)
  {
  }

  /** Handlers keep their clock readings; one that is new reads the clock now. */
  lemma StepKeepsThaws(owner: AdId -> UserId, states: seq<State>, actions: seq<Action>, i: nat, ad: AdId, from: nat, start: Time, t: Time)
    requires SerialRun(owner, states, actions) && ClockRuns(actions, from, start) && from <= i < |actions|
    requires ThawsLater(states[i], actions, i, ad, t) && NotBefore(actions, i, t)
    ensures ThawsLater(states[i + 1], actions, i + 1, ad, t)
  {
    var s, a, s' := states[i], actions[i], states[i + 1];
    assert Enabled(owner, s, a) && s' == Apply(owner, s, a);
    forall h | 0 <= h < |s'.handlers| && s'.handlers[h].Resuming? && s'.handlers[h].ad == ad
      ensures t <= s'.handlers[h].now && NotBefore(actions, i + 1, s'.handlers[h].now)
    {
      if h < |s.handlers| {
        assert s'.handlers[h] == s.handlers[h];
        NotBeforeLater(actions, i, i + 1, s.handlers[h].now);
      } else {
        assert TimeOf(a) == Some(s'.handlers[h].now);
        NotBeforeLater(actions, i, i + 1, s'.handlers[h].now);
      }
    }
  }

  /** No handler is about to thaw an ad that is being frozen. */
  lemma FreezeFindsNoThaw(owner: AdId -> UserId, states: seq<State>, actions: seq<Action>, i: nat, t: Time)
    requires SerialRun(owner, states, actions) && i < |actions| && actions[i].SuspendAd?
    ensures ThawsLater(states[i + 1], actions, i + 1, actions[i].ad, t)
  {
    assert Serial(states[i], actions[i]);
    assert states[i + 1].handlers == states[i].handlers;
  }

  lemma StepTracks(owner: AdId -> UserId, states: seq<State>, actions: seq<Action>, i: nat, r: nat,
                   p: AdPromotion, from: nat, start: Time, run: seq<Freeze>)
    requires SerialRun(owner, states, actions) && ClockRuns(actions, from, start) && from <= i < |actions|
    requires Tracked(states[i], actions, i, r, p, start, run)
    ensures Tracked(states[i + 1], actions, i + 1, r, p, start, run + EventOf(states[i], actions[i], r))
  {
    var s, a, s' := states[i], actions[i], states[i + 1];
    var e := EventOf(s, a, r);
    StepMovesRow(owner, s, a, s', r);
    NotBeforeLater(actions, i, i + 1, LastTime(start, run));
    if e == [] {
      assert run + e == run;
      if s.db.promotions[r].status.Suspended? {
        StepKeepsThaws(owner, states, actions, i, p.adId, from, start, LastTime(start, run));
      }
    } else {
      OneMoreEvent(p, start, run, e[0]);
      assert run + e == run + [e[0]];
      assert NotBefore(actions, i, e[0].at) && LastTime(start, run) <= e[0].at;
      NotBeforeLater(actions, i, i + 1, e[0].at);
      if e[0].Freeze? {
        FreezeFindsNoThaw(owner, states, actions, i, e[0].at);
      }
    }
    hide Apply;
    hide Enabled;
    hide NotBefore;
    hide ThawsLater;
  }

  lemma StartTracks(s: State, actions: seq<Action>, from: nat, r: nat, start: Time)
    requires r < |s.db.promotions| && Running(s.db.promotions[r], start) && NotBefore(actions, from, start)
    ensures Tracked(s, actions, from, r, s.db.promotions[r], start, [])
  {
  }

  lemma {:induction false} RunTracks(owner: AdId -> UserId, states: seq<State>, actions: seq<Action>, from: nat, i: nat,
                                     r: nat, p: AdPromotion, start: Time)
    requires SerialRun(owner, states, actions) && ClockRuns(actions, from, start) && from <= i < |states|
    requires Tracked(states[from], actions, from, r, p, start, [])
    ensures Tracked(states[i], actions, i, r, p, start, Events(states, actions, r, from, i))
  {
    hide Tracked;
    hide ClockRuns;
    hide Enabled;
    hide Apply;
    hide Serial;
    hide EventOf;
    if i > from {
      var run := Events(states, actions, r, from, i - 1);
      RunTracks(owner, states, actions, from, i - 1, r, p, start);
      StepTracks(owner, states, actions, i - 1, r, p, from, start, run);
    }
  }

  /** In every serial run whose clock does not go back, from any state in which a service runs:
      until it is closed, its time left shrinks only by time spent active, its end date moves on
      by exactly the time spent frozen, and what a refund would pay never grows. */
  lemma PaidTimeInRuns(owner: AdId -> UserId, states: seq<State>, actions: seq<Action>, from: nat, i: nat,
                       r: nat, start: Time, t: Time)
    requires SerialRun(owner, states, actions) && ClockRuns(actions, from, start) && from <= i < |states|
    requires r < |states[from].db.promotions| && Running(states[from].db.promotions[r], start)
    requires LastTime(start, Events(states, actions, r, from, i)) <= t
    ensures r < |states[i].db.promotions|
    ensures var p, q, run := states[from].db.promotions[r], states[i].db.promotions[r], Events(states, actions, r, from, i);
            q.status.Refunded? || (
              && q.endsAt.Some?
              && q.endsAt.value - AsOf(q, t) == p.endsAt.value - start - ActiveUntil(p, start, run, t)
              && (q.status.Active? ==> q.endsAt.value == p.endsAt.value + FrozenUntil(p, start, run, t))
              && ActiveUntil(p, start, run, t) + FrozenUntil(p, start, run, t) == t - start
              && (p.amount <= MAX_INT64 && ProductFits(p, start) ==>
                    ProductFits(q, t) && RefundAmount(q, t) <= RefundAmount(p, start)))
  {
    var p, run := states[from].db.promotions[r], Events(states, actions, r, from, i);
    StartTracks(states[from], actions, from, r, start);
    RunTracks(owner, states, actions, from, i, r, p, start);
    PaidTimeConserved(p, start, run, t);
    if p.amount <= MAX_INT64 && ProductFits(p, start) {
      RefundNeverGrows(p, start, run, t);
    }
    hide After;
    hide ActiveUntil;
    hide FrozenUntil;
    hide RefundAmount;
    hide ProductFits;
    hide SerialRun;
  }
}
