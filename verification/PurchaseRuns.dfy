/**
 The service methods, each called while nobody else is at work on the ad, as runs of the machine
 whose steps may interleave (services/payments/internal/app/promotion_ad.go:68-126,
 services/payments/internal/app/lifecycle.go:37-81). What holds over runs so holds for the
 methods: refunds for an ad never exceed what was paid for it.
 */
module PurchaseRuns {
  import opened Clock
  import opened Collections
  import opened RefundArithmetic
  import opened PaymentsDb
  import opened Pricing
  import opened PaymentsRuns
  import PaymentsServices

  /** The actions lead from one state to the other, each being possible where it is taken. */
  ghost predicate Leads(owner: AdId -> UserId, s: State, actions: seq<Action>, s': State)
    decreases |actions|
  {
    if actions == [] then s' == s
    else Enabled(owner, s, actions[0]) && Serial(s, actions[0]) && Leads(owner, Apply(owner, s, actions[0]), actions[1..], s')
  }

  lemma LeadsOne(owner: AdId -> UserId, s: State, a: Action)
    requires Enabled(owner, s, a) && Serial(s, a)
    ensures Leads(owner, s, [a], Apply(owner, s, a))
  {
  }

  lemma LeadsTwice(owner: AdId -> UserId, s: State, a: Action, b: Action)
    requires Enabled(owner, s, a) && Serial(s, a)
    requires Enabled(owner, Apply(owner, s, a), b) && Serial(Apply(owner, s, a), b)
    ensures Leads(owner, s, [a, b], Apply(owner, Apply(owner, s, a), b))
  {
    LeadsOne(owner, Apply(owner, s, a), b);
    assert [a, b][1..] == [b];
  }

  lemma LeadsFirst(owner: AdId -> UserId, s: State, a: Action, actions: seq<Action>, s': State)
    requires Enabled(owner, s, a) && Serial(s, a) && Leads(owner, Apply(owner, s, a), actions, s')
    ensures Leads(owner, s, [a] + actions, s')
  {
    assert ([a] + actions)[1..] == actions;
  }

  /** The steps that a purchase takes once its price is; `k` is the place of its saga. */
  function AfterCharge(k: nat, faults: PaymentsServices.Faults): seq<Action> {
    if !faults.debit.Confirmed? || faults.event then [Abandon(k)]
    else if faults.activation.Confirmed? then [Activate(k)]
    else [if faults.activation.Unheard? then ActivateUnheard(k) else FailActivation(k),
          if faults.compensation.RolledBack? then Abandon(k) else Compensate(k)]
  }

  /** What is left of a purchase, after its charge, leads to what it leaves. */
  lemma SagaFromCharge(owner: AdId -> UserId, s: State, k: nat, ad: PaymentsServices.AdView, plan: Plan, rows: seq<AdPromotion>,
                       faults: PaymentsServices.Faults, outcome: PaymentsServices.Outcome, after: Db) returns (s': State)
    requires k < |s.sagas| && faults.debit.Confirmed?
    requires s.sagas[k] == Charged(ad.userId, ad.id, plan.amount, rows, PaymentsServices.ActivatedEvent(ad, plan))
    requires PaymentsServices.Settled(s.db, after, ad.userId, ad, plan, rows, faults, outcome)
    ensures Leads(owner, s, AfterCharge(k, faults), s') && s'.db == after
  {
    hide PaymentsServices.ActivatedEvent;
    hide RefundTx;
    hide ActivateTx;
    hide Leads;
    if faults.event {
      s' := Apply(owner, s, Abandon(k));
      LeadsOne(owner, s, Abandon(k));
    } else if faults.activation.Confirmed? {
      s' := Apply(owner, s, Activate(k));
      LeadsOne(owner, s, Activate(k));
    } else {
      var first := if faults.activation.Unheard? then ActivateUnheard(k) else FailActivation(k);
      var last := if faults.compensation.RolledBack? then Abandon(k) else Compensate(k);
      s' := Apply(owner, Apply(owner, s, first), last);
      LeadsTwice(owner, s, first, last);
    }
  }

  /** However its steps end, a purchase is a run of the machine: refused, it takes no step; else its
      charge and what follows lead to exactly the tables it leaves. */
  lemma PurchaseIsARun(owner: AdId -> UserId, s: State, after: Db, user: UserId, ad: PaymentsServices.AdView, plan: Plan,
                       rows: seq<AdPromotion>, faults: PaymentsServices.Faults, outcome: PaymentsServices.Outcome)
    returns (actions: seq<Action>, s': State)
    requires PaymentsServices.Bought(s.db, after, user, ad, plan, rows, faults, outcome)
    requires user == ad.userId == owner(ad.id) && 0 < plan.amount <= MAX_INT64 && PlannedRows(rows, user, ad.id, plan.amount)
    ensures Leads(owner, s, actions, s') && s'.db == after && s'.handlers == s.handlers
    ensures actions == [] || actions == [Charge(user, ad.id, plan.amount, rows, PaymentsServices.ActivatedEvent(ad, plan))]
                                        + AfterCharge(|s.sagas|, faults)
  {
    var debit := DebitTx(s.db, user, plan.amount, Purchase, Some(ForAd(ad.id)));
    var event := PaymentsServices.ActivatedEvent(ad, plan);
    hide PaymentsServices.Told;
    if faults.debit.RolledBack? || debit.Err? {
      actions, s' := [], s;
    } else {
      var charge := Charge(user, ad.id, plan.amount, rows, event);
      var s1 := Apply(owner, s, charge);
      assert Enabled(owner, s, charge) && Serial(s, charge);
      hide DebitTx;
      hide PlannedRows;
      hide PaymentsServices.ActivatedEvent;
      if faults.debit.Unheard? {
        s' := Apply(owner, s1, Abandon(|s.sagas|));
        LeadsOne(owner, s1, Abandon(|s.sagas|));
      } else {
        s' := SagaFromCharge(owner, s1, |s.sagas|, ad, plan, rows, faults, outcome, after);
      }
      HandlersStay(owner, s1, AfterCharge(|s.sagas|, faults), s');
      actions := [charge] + AfterCharge(|s.sagas|, faults);
      LeadsFirst(owner, s, charge, AfterCharge(|s.sagas|, faults), s');
    }
  }

  predicate OfSagas(a: Action) {
    a.Activate? || a.ActivateUnheard? || a.FailActivation? || a.Compensate? || a.Abandon?
  }

  lemma {:induction false} HandlersStay(owner: AdId -> UserId, s: State, actions: seq<Action>, s': State)
    requires Leads(owner, s, actions, s') && forall i :: 0 <= i < |actions| ==> OfSagas(actions[i])
    ensures s'.handlers == s.handlers
    decreases |actions|
  {
    if actions != [] {
      assert OfSagas(actions[0]);
      HandlersStay(owner, Apply(owner, s, actions[0]), actions[1..], s');
    }
  }

  /** Closing an ad's services, and thawing them, is a reading step and a writing step, or none. */
  lemma ClosingIsARun(owner: AdId -> UserId, s: State, ad: AdId, reason: string, now: Time) returns (actions: seq<Action>, s': State)
    requires !Busy(s, ad)
    ensures Leads(owner, s, actions, s') && s'.db == PaymentsServices.Closed(s.db, ad, reason, now)
    ensures actions == [] || actions == [ReadForRefund(ad, now, reason), WriteRefund(|s.handlers|)]
  {
    hide RefundPromotionsTx;
    hide Sum;
    hide ListRows;
    if LastLiveUser(ListRows(s.db.promotions, ad, None)).None? {
      actions, s' := [], s;
    } else {
      var read, write := ReadForRefund(ad, now, reason), WriteRefund(|s.handlers|);
      actions, s' := [read, write], Apply(owner, Apply(owner, s, read), write);
      LeadsTwice(owner, s, read, write);
    }
  }

  lemma ThawingIsARun(owner: AdId -> UserId, s: State, ad: AdId, title: string, now: Time) returns (actions: seq<Action>, s': State)
    requires !Busy(s, ad)
    ensures Leads(owner, s, actions, s') && s'.db == PaymentsServices.Thawed(s.db, ad, title, now)
    ensures actions == [] || actions == [ReadForResume(ad, title, now), WriteResume(|s.handlers|)]
  {
    hide ResumeTx;
    hide ListRows;
    hide ResumeTopEvent;
    if ListRows(s.db.promotions, ad, Some(Suspended)) == [] {
      actions, s' := [], s;
    } else {
      var read, write := ReadForResume(ad, title, now), WriteResume(|s.handlers|);
      actions, s' := [read, write], Apply(owner, Apply(owner, s, read), write);
      LeadsTwice(owner, s, read, write);
    }
  }

  /** Such steps go on with any run of handlers that take turns at an ad. */
  lemma {:induction false} LeadsExtendsRun(owner: AdId -> UserId, states: seq<State>, actions: seq<Action>, more: seq<Action>, s': State)
    returns (longer: seq<State>)
    requires SerialRun(owner, states, actions) && Leads(owner, states[|actions|], more, s')
    ensures SerialRun(owner, longer, actions + more) && longer[|actions + more|] == s' && states <= longer
    decreases |more|
  {
    hide Apply;
    hide Enabled;
    hide Serial;
    if more == [] {
      assert actions + more == actions;
      longer := states;
    } else {
      var next := Apply(owner, states[|actions|], more[0]);
      var states', actions' := states + [next], actions + [more[0]];
      forall i {:trigger actions'[i]} | 0 <= i < |actions'|
        ensures Enabled(owner, states'[i], actions'[i]) && states'[i + 1] == Apply(owner, states'[i], actions'[i])
        ensures Serial(states'[i], actions'[i])
      {
        if i < |actions| {
          assert actions'[i] == actions[i];
        }
      }
      longer := LeadsExtendsRun(owner, states', actions', more[1..], s');
      assert actions' + more[1..] == actions + more;
    }
  }

  /** So after any run and any method called while nobody is at work on its ad, as before: what was
      returned for an ad, what still runs and what is in flight is covered by what was paid and what
      was given away. */
  lemma MethodsReturnNoMoreThanPaid(owner: AdId -> UserId, states: seq<State>, actions: seq<Action>, more: seq<Action>, s': State, ad: AdId)
    requires SerialRun(owner, states, actions) && Leads(owner, states[|actions|], more, s')
    ensures Returned(s'.db, ad) + Live(s'.db, ad) + InFlight(s', ad) <= Paid(s'.db, ad) + GivenAway(s', ad)
  {
    var longer := LeadsExtendsRun(owner, states, actions, more, s');
    RefundsNeverExceedPurchases(owner, longer, actions + more, |actions + more|, ad);
  }
}
