/**
 Providers repeat their callbacks and cancel what they confirmed. Whatever they send
 in whatever order, a payment reaches one final status, is credited once or never, and
 announces one outcome (services/payments/internal/repo/payment.go).
 */
module TopUps {
  import opened Clock
  import opened Collections
  import opened RefundArithmetic
  import opened PaymentsDb
  import opened Ledger
  import opened PaymentsRuns

  function TopUpOf(id: PaymentId): Posting -> bool {
    (p: Posting) => p.account == UserWallet && p.kind == Topup && p.reference == Some(ForPayment(id))
  }

  function OutcomeOf(id: PaymentId): Event -> bool {
    (e: Event) => (e.PaymentSucceeded? || e.PaymentFailed?) && e.paymentId == id
  }

  function TopUps(db: Db, id: PaymentId): seq<Posting> { Filter(db.ledger, TopUpOf(id)) }

  function Outcomes(db: Db, id: PaymentId): seq<Event> { Filter(db.outbox, OutcomeOf(id)) }

  ghost predicate CreditedOnce(db: Db, id: PaymentId)
    requires id in db.payments
  {
    |TopUps(db, id)| == 1
    && var p := TopUps(db, id)[0];
       p.walletUser == Some(db.payments[id].userId) && p.direction == Credit && p.amount == db.payments[id].amount
  }

  ghost predicate PaymentSettled(db: Db, id: PaymentId) {
    if id !in db.payments then TopUps(db, id) == [] && Outcomes(db, id) == [] else
    var p := db.payments[id];
    match p.status
    case Pending => TopUps(db, id) == [] && Outcomes(db, id) == []
    case Succeeded => CreditedOnce(db, id) && Outcomes(db, id) == [PaymentSucceeded(id, p.userId, p.provider, p.amount)]
    case Failed => TopUps(db, id) == [] && Outcomes(db, id) == [PaymentFailed(id, p.userId, p.provider, p.amount)]
    case Canceled => TopUps(db, id) == [] && Outcomes(db, id) == [PaymentFailed(id, p.userId, p.provider, p.amount)]
  }

  /** What a step may do to a payment: nothing at all once its status is final. */
  ghost predicate PaymentEvolves(db: Db, db': Db, id: PaymentId) {
    id in db.payments ==>
      && id in db'.payments
      && db'.payments[id].userId == db.payments[id].userId
      && db'.payments[id].provider == db.payments[id].provider
      && db'.payments[id].amount == db.payments[id].amount
      && (IsTerminal(db.payments[id].status) ==> db'.payments[id].status == db.payments[id].status)
  }

  ghost predicate SagaEvents(sagas: seq<Saga>) {
    forall k :: 0 <= k < |sagas| && sagas[k].Charged? ==> sagas[k].event.PromotionActivated?
  }

  ghost predicate HandlerEvents(handlers: seq<Handler>) {
    forall h :: 0 <= h < |handlers| && handlers[h].Resuming? && handlers[h].event.Some? ==>
      handlers[h].event.value.PromotionActivated?
  }

  ghost predicate TopUpInv(s: State) {
    && SagaEvents(s.sagas) && HandlerEvents(s.handlers)
    && forall id :: PaymentSettled(s.db, id)
  }

  lemma FilterPair(ledger: seq<Posting>, operation: nat, kind: Kind, reference: Option<Ref>, user: UserId,
                   direction: Direction, counter: Account, amount: int, id: PaymentId)
    requires counter != UserWallet
    ensures var pair := Pair(operation, kind, reference, user, direction, counter, amount);
            Filter(ledger + pair, TopUpOf(id)) ==
              Filter(ledger, TopUpOf(id)) + if TopUpOf(id)(pair[0]) then [pair[0]] else []
  {
    var pair := Pair(operation, kind, reference, user, direction, counter, amount);
    assert ledger + pair == (ledger + [pair[0]]) + [pair[1]];
    FilterSnoc(ledger + [pair[0]], pair[1], TopUpOf(id));
    FilterSnoc(ledger, pair[0], TopUpOf(id));
  }

  lemma {:induction false} ResumeEventKind(rows: seq<AdPromotion>, ad: AdId, title: string, now: Time)
    ensures var e := ResumeTopEvent(rows, ad, title, now); e.Some? ==> e.value.PromotionActivated?
  {
    if rows != [] {
      ResumeEventKind(rows[1..], ad, title, now);
    }
  }

  /** A step that leaves a payment alone and neither credits nor announces it. */
  lemma ForeignStep(db: Db, db': Db, id: PaymentId)
    requires PaymentSettled(db, id)
    requires id in db'.payments <==> id in db.payments
    requires id in db.payments ==> db'.payments[id] == db.payments[id]
    requires TopUps(db', id) == TopUps(db, id) && Outcomes(db', id) == Outcomes(db, id)
    ensures PaymentSettled(db', id) && PaymentEvolves(db, db', id)
  {
  }

  lemma ConfirmSettles(db: Db, id: PaymentId, externalId: string, other: PaymentId)
    requires PaymentSettled(db, other) && ConfirmPaymentTx(db, id, externalId).Ok?
    ensures var db' := ConfirmPaymentTx(db, id, externalId).value;
            PaymentSettled(db', other) && PaymentEvolves(db, db', other)
  {
    if db.payments[id].status.Pending? {
      var p := db.payments[id];
      FilterPair(db.ledger, db.nextOperation, Topup, Some(ForPayment(id)), p.userId, Credit, ExternalTopup, p.amount, other);
      FilterSnoc(db.outbox, PaymentSucceeded(id, p.userId, p.provider, p.amount), OutcomeOf(other));
      if other != id {
        ForeignStep(db, ConfirmPaymentTx(db, id, externalId).value, other);
      }
    }
    hide Filter;
  }

  lemma FailSettles(db: Db, id: PaymentId, outcome: PaymentStatus, other: PaymentId)
    requires PaymentSettled(db, other) && FailPaymentTx(db, id, outcome).Ok?
    ensures var db' := FailPaymentTx(db, id, outcome).value;
            PaymentSettled(db', other) && PaymentEvolves(db, db', other)
  {
    var db' := FailPaymentTx(db, id, outcome).value;
    if db.payments[id].status.Pending? {
      var p := db.payments[id];
      FilterSnoc(db.outbox, PaymentFailed(id, p.userId, p.provider, p.amount), OutcomeOf(other));
    }
    hide Filter;
    if other != id || !db.payments[id].status.Pending? {
      ForeignStep(db, db', other);
    } else {
      assert TopUps(db', id) == TopUps(db, id) == [];
      assert Outcomes(db', id) == [db'.outbox[|db.outbox|]];
    }
    hide TopUps;
    hide Outcomes;
    hide CreditedOnce;
  }

  ghost predicate ConcernsPayments(a: Action) {
    a.CreatePayment? || a.SetExternalId? || a.ConfirmPayment? || a.FailPayment?
  }

  lemma OtherTopUps(owner: AdId -> UserId, s: State, a: Action, s': State, id: PaymentId)
    requires Enabled(owner, s, a) && !ConcernsPayments(a) && s' == Apply(owner, s, a)
    ensures TopUps(s'.db, id) == TopUps(s.db, id)
  {
    match a
    case Charge(user, ad, price, _, _) =>
      FilterPair(s.db.ledger, s.db.nextOperation, Purchase, Some(ForAd(ad)), user, Debit, PromotionRevenue, price, id);
    case Compensate(k) =>
      var saga := s.sagas[k];
      FilterPair(s.db.ledger, s.db.nextOperation, Refund, Some(ForAd(saga.ad)), saga.user, Credit, ExternalTopup, saga.price, id);
    case WriteRefund(h) =>
      var w := s.handlers[h];
      FilterPair(s.db.ledger, s.db.nextOperation, Refund, Some(ForAd(w.ad)), w.user, Credit, ExternalTopup, w.amount, id);
    case _ =>
  }

  /** A step about anything else announces at most one event, and not a payment's. */
  lemma OtherNews(owner: AdId -> UserId, s: State, a: Action, s': State)
    requires SagaEvents(s.sagas) && HandlerEvents(s.handlers)
    requires Enabled(owner, s, a) && !ConcernsPayments(a) && s' == Apply(owner, s, a)
    ensures s'.db.payments == s.db.payments
    ensures s'.db.outbox == s.db.outbox
         || exists e: Event :: (e.PromotionActivated? || e.WalletRefunded?) && s'.db.outbox == s.db.outbox + [e]
  {
  }

  lemma OtherOutcomes(db: Db, db': Db, e: Event, id: PaymentId)
    requires (e.PromotionActivated? || e.WalletRefunded?) && db'.outbox == db.outbox + [e]
    ensures Outcomes(db', id) == Outcomes(db, id)
  {
  }

  lemma SettleStep(owner: AdId -> UserId, s: State, a: Action, s': State, id: PaymentId)
    requires SagaEvents(s.sagas) && HandlerEvents(s.handlers)
    requires PaymentSettled(s.db, id) && Enabled(owner, s, a) && s' == Apply(owner, s, a)
    ensures PaymentSettled(s'.db, id) && PaymentEvolves(s.db, s'.db, id)
  {
    if a.ConfirmPayment? {
      ConfirmSettles(s.db, a.id, a.externalId, id);
    } else if a.FailPayment? {
      FailSettles(s.db, a.id, a.outcome, id);
    } else if !ConcernsPayments(a) {
      OtherTopUps(owner, s, a, s', id);
      OtherNews(owner, s, a, s');
      if s'.db.outbox != s.db.outbox {
        var e: Event :| (e.PromotionActivated? || e.WalletRefunded?) && s'.db.outbox == s.db.outbox + [e];
        OtherOutcomes(s.db, s'.db, e, id);
      }
      ForeignStep(s.db, s'.db, id);
    }
  }

  lemma EventsStep(owner: AdId -> UserId, s: State, a: Action)
    requires SagaEvents(s.sagas) && HandlerEvents(s.handlers) && Enabled(owner, s, a)
    ensures SagaEvents(Apply(owner, s, a).sagas) && HandlerEvents(Apply(owner, s, a).handlers)
  {
    if a.ReadForResume? {
      ResumeEventKind(ListRows(s.db.promotions, a.ad, Some(Suspended)), a.ad, a.title, a.now);
    }
  }

  lemma StepKeepsTopUps(owner: AdId -> UserId, s: State, a: Action, s': State)
    requires TopUpInv(s) && Enabled(owner, s, a) && s' == Apply(owner, s, a)
    ensures TopUpInv(s')
    ensures forall id :: PaymentEvolves(s.db, s'.db, id)
  {
    EventsStep(owner, s, a);
    forall id ensures PaymentSettled(s'.db, id) && PaymentEvolves(s.db, s'.db, id) {
      assert PaymentSettled(s.db, id);
      SettleStep(owner, s, a, s', id);
    }
  }

  lemma {:induction false} RunKeepsTopUps(owner: AdId -> UserId, states: seq<State>, actions: seq<Action>, i: nat)
    requires Run(owner, states, actions) && i < |states|
    ensures TopUpInv(states[i])
  {
    if i > 0 {
      RunKeepsTopUps(owner, states, actions, i - 1);
      StepKeepsTopUps(owner, states[i - 1], actions[i - 1], states[i]);
    }
  }

  /** In every run a payment is succeeded exactly when one top-up posting references it, and
      that posting credits its owner with its amount; it never announces two outcomes. */
  lemma TopUpExactlyOnce(owner: AdId -> UserId, states: seq<State>, actions: seq<Action>, i: nat, id: PaymentId)
    requires Run(owner, states, actions) && i < |states|
    ensures var db := states[i].db;
            && (|TopUps(db, id)| == 1 <==> id in db.payments && db.payments[id].status.Succeeded?)
            && (TopUps(db, id) != [] ==> id in db.payments && CreditedOnce(db, id))
            && |Outcomes(db, id)| == if id in db.payments && IsTerminal(db.payments[id].status) then 1 else 0
  {
    RunKeepsTopUps(owner, states, actions, i);
    assert PaymentSettled(states[i].db, id);
  }

  /** Final statuses are final. */
  lemma {:induction false} TerminalForever(owner: AdId -> UserId, states: seq<State>, actions: seq<Action>, i: nat, j: nat, id: PaymentId)
    requires Run(owner, states, actions) && i <= j < |states|
    requires id in states[i].db.payments && IsTerminal(states[i].db.payments[id].status)
    ensures id in states[j].db.payments && states[j].db.payments[id].status == states[i].db.payments[id].status
  {
    if i < j {
      TerminalForever(owner, states, actions, i, j - 1, id);
      RunKeepsTopUps(owner, states, actions, j - 1);
      StepKeepsTopUps(owner, states[j - 1], actions[j - 1], states[j]);
      assert PaymentEvolves(states[j - 1].db, states[j].db, id);
    }
  }

  /* References at the provider */

  ghost predicate ReferencesUnique(db: Db) {
    forall a, b :: a in db.payments && b in db.payments && a != b
      && db.payments[a].provider == db.payments[b].provider && db.payments[a].externalId.Some?
      ==> db.payments[a].externalId != db.payments[b].externalId
  }

  /** Giving one payment a reference that is not taken keeps references unique. */
  lemma FreshReference(db: Db, db': Db, id: PaymentId)
    requires ReferencesUnique(db) && id in db.payments
    requires db'.payments.Keys == db.payments.Keys
    requires forall other :: other in db.payments && other != id ==> db'.payments[other] == db.payments[other]
    requires db'.payments[id].provider == db.payments[id].provider
    requires !ExternalIdTaken(db, id, db'.payments[id].externalId)
    ensures ReferencesUnique(db')
  {
  }

  lemma StepKeepsReferences(owner: AdId -> UserId, s: State, a: Action, s': State)
    requires ReferencesUnique(s.db) && Enabled(owner, s, a) && s' == Apply(owner, s, a)
    ensures ReferencesUnique(s'.db)
  {
    if (a.SetExternalId? || a.ConfirmPayment?) && s'.db.payments != s.db.payments {
      FreshReference(s.db, s'.db, a.id);
    } else if !a.CreatePayment? && !a.FailPayment? {
      assert s'.db.payments == s.db.payments;
    }
  }

  /** A provider's reference never names two payments, so a callback finds its payment. */
  lemma {:induction false} ReferenceNamesOnePayment(owner: AdId -> UserId, states: seq<State>, actions: seq<Action>, i: nat)
    requires Run(owner, states, actions) && i < |states|
    ensures ReferencesUnique(states[i].db)
  {
    if i > 0 {
      ReferenceNamesOnePayment(owner, states, actions, i - 1);
      StepKeepsReferences(owner, states[i - 1], actions[i - 1], states[i]);
    }
  }

  /** A payment stands for a request: whoever asked for it pays the sum asked for, at that provider. */
  lemma {:induction false} PaymentsAreRequested(owner: AdId -> UserId, states: seq<State>, actions: seq<Action>, i: nat, id: PaymentId)
    returns (j: nat)
    requires Run(owner, states, actions) && i < |states| && id in states[i].db.payments
    ensures j < i && actions[j].CreatePayment? && actions[j].id == id
    ensures var p := states[i].db.payments[id];
            p.userId == actions[j].payer && p.provider == actions[j].provider && p.amount == actions[j].sum
  {
    var s, a := states[i - 1], actions[i - 1];
    assert Enabled(owner, s, a) && states[i] == Apply(owner, s, a);
    if id in s.db.payments {
      j := PaymentsAreRequested(owner, states, actions, i - 1, id);
      RunKeepsTopUps(owner, states, actions, i - 1);
      StepKeepsTopUps(owner, s, a, states[i]);
      assert PaymentEvolves(s.db, states[i].db, id);
    } else {
      j := i - 1;
      OnlyCreationAdds(owner, s, a, states[i], id);
    }
  }

  lemma OnlyCreationAdds(owner: AdId -> UserId, s: State, a: Action, s': State, id: PaymentId)
    requires Enabled(owner, s, a) && s' == Apply(owner, s, a) && id !in s.db.payments && id in s'.db.payments
    ensures a.CreatePayment? && a.id == id
    ensures s'.db.payments[id] == Payment(a.payer, a.provider, a.sum, Pending, None)
  {
  }

  /** The wallet of one user rises by an amount, and nobody else's changes. */
  ghost predicate Gains(db: Db, db': Db, user: UserId, amount: int) {
    && BalanceOf(db', user) == BalanceOf(db, user) + amount
    && forall other :: other != user ==> BalanceOf(db', other) == BalanceOf(db, other)
  }

  /** A confirmation pays a pending payment into its owner's wallet and says so, and is nothing to any other. */
  lemma ConfirmationPays(owner: AdId -> UserId, s: State, id: PaymentId, externalId: string, s': State)
    requires Enabled(owner, s, ConfirmPayment(id, externalId)) && s' == Apply(owner, s, ConfirmPayment(id, externalId))
    ensures id in s.db.payments
    ensures var p := s.db.payments[id];
            if p.status != Pending then s' == s else
              && Gains(s.db, s'.db, p.userId, p.amount)
              && s'.db.payments[id].status == Succeeded
              && s'.db.payments[id].externalId == (if externalId != "" then Some(externalId) else p.externalId)
              && (forall other :: other in s.db.payments && other != id ==>
                    other in s'.db.payments && s'.db.payments[other] == s.db.payments[other])
              && s'.db.outbox == s.db.outbox + [PaymentSucceeded(id, p.userId, p.provider, p.amount)]
              && s'.db.promotions == s.db.promotions
  {
  }

  /** A failure ends a pending payment as it says and says so, without money. */
  lemma FailureEnds(owner: AdId -> UserId, s: State, id: PaymentId, outcome: PaymentStatus, s': State)
    requires Enabled(owner, s, FailPayment(id, outcome)) && s' == Apply(owner, s, FailPayment(id, outcome))
    ensures id in s.db.payments && (outcome == Failed || outcome == Canceled)
    ensures var p := s.db.payments[id];
            if p.status != Pending then s' == s else
              && s'.db.wallets == s.db.wallets && s'.db.ledger == s.db.ledger
              && s'.db.payments == s.db.payments[id := p.(status := outcome)]
              && s'.db.outbox == s.db.outbox + [PaymentFailed(id, p.userId, p.provider, p.amount)]
  {
  }

  /** A pending payment takes the provider's reference if it has no other; it is refused one in use. */
  lemma ReferenceIsTaken(db: Db, id: PaymentId, externalId: string)
    requires id in db.payments && db.payments[id].status == Pending
    ensures var p, r := db.payments[id], SetExternalIdTx(db, id, externalId);
            if p.externalId != None && p.externalId != Some(externalId) then r == Ok(db)
            else if exists other :: other in db.payments && other != id && db.payments[other].provider == p.provider
                      && db.payments[other].externalId == Some(externalId)
            then r == Err(UniqueViolation)
            else r == Ok(db.(payments := db.payments[id := p.(externalId := Some(externalId))]))
  {
  }
}
