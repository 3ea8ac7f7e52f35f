/**
 Every interleaving of provider callbacks, purchase sagas and the ad-lifecycle
 handler over the payments tables. A saga or a handler holds local values between
 its transactions; a crash, a redelivery or a failing step may come at any point.
 */
module PaymentsRuns {
  import opened Clock
  import opened Collections
  import opened RefundArithmetic
  import opened PaymentsDb
  import opened Ledger

  /** A purchase between its transactions: charged, or charged and told that its activation failed,
      which may have been committed all the same. */
  datatype Saga =
    | Charged(user: UserId, ad: AdId, price: int, rows: seq<AdPromotion>, event: Event)
    | Failing(user: UserId, ad: AdId, price: int, delivered: bool)
    | Over

  /** A lifecycle handler between listing an ad's rows and writing them. */
  datatype Handler =
    | Refunding(ad: AdId, user: UserId, amount: int, reason: string)
    | Resuming(ad: AdId, title: string, now: Time, event: Option<Event>)
    | Finished

  /** `givenAway` are the purchases that were delivered and paid back. */
  datatype State = State(db: Db, sagas: seq<Saga>, handlers: seq<Handler>, givenAway: seq<Saga>)

  const INIT: State := State(EMPTY, [], [], [])

  datatype Action =
    | CreatePayment(id: PaymentId, payer: UserId, provider: Provider, sum: int)
    | SetExternalId(id: PaymentId, externalId: string)
    | ConfirmPayment(id: PaymentId, externalId: string)
    | FailPayment(id: PaymentId, outcome: PaymentStatus)
    | Charge(user: UserId, ad: AdId, price: int, rows: seq<AdPromotion>, event: Event)
    | Activate(saga: nat)
    | ActivateUnheard(saga: nat)
    | FailActivation(saga: nat)
    | Compensate(saga: nat)
    | Abandon(saga: nat)
    | SuspendAd(ad: AdId, now: Time)
    | ReadForRefund(ad: AdId, now: Time, reason: string)
    | WriteRefund(handler: nat)
    | ReadForResume(ad: AdId, title: string, now: Time)
    | WriteResume(handler: nat)
    | Crash(handler: nat)

  /** The rows one purchase creates: all of the ad and its owner, the whole price on the first. */
  ghost predicate PlannedRows(rows: seq<AdPromotion>, user: UserId, ad: AdId, price: int) {
    forall i :: 0 <= i < |rows| ==>
      && rows[i].adId == ad && rows[i].userId == user
      && rows[i].status == Active && rows[i].suspendedAt == None
      && rows[i].amount == if i == 0 then price else 0
  }

  function LastLiveUser(rows: seq<AdPromotion>): Option<UserId> {
    if rows == [] then None
    else if IsLive(rows[|rows| - 1].status) then Some(rows[|rows| - 1].userId)
    else LastLiveUser(rows[..|rows| - 1])
  }

  ghost predicate Enabled(owner: AdId -> UserId, s: State, a: Action) {
    match a
    case CreatePayment(id, payer, provider, sum) => CreatePaymentTx(s.db, id, payer, provider, sum).Ok?
    case SetExternalId(id, externalId) => SetExternalIdTx(s.db, id, externalId).Ok?
    case ConfirmPayment(id, externalId) => ConfirmPaymentTx(s.db, id, externalId).Ok?
    case FailPayment(id, outcome) => FailPaymentTx(s.db, id, outcome).Ok?
    case Charge(user, ad, price, rows, event) =>
      // only the owner may promote an ad, and events about payments are not a saga's
      owner(ad) == user && price <= MAX_INT64 && PlannedRows(rows, user, ad, price) && event.PromotionActivated?
      && DebitTx(s.db, user, price, Purchase, Some(ForAd(ad))).Ok?
    case Activate(k) => k < |s.sagas| && s.sagas[k].Charged?
    case ActivateUnheard(k) => k < |s.sagas| && s.sagas[k].Charged?
    case FailActivation(k) => k < |s.sagas| && s.sagas[k].Charged?
    case Compensate(k) => k < |s.sagas| && s.sagas[k].Failing?
    case Abandon(k) => k < |s.sagas| && !s.sagas[k].Over?
    case SuspendAd(_, _) => true
    case ReadForRefund(ad, _, _) => LastLiveUser(ListRows(s.db.promotions, ad, None)).Some?
    case WriteRefund(h) => h < |s.handlers| && s.handlers[h].Refunding?
    case ReadForResume(ad, _, _) => ListRows(s.db.promotions, ad, Some(Suspended)) != []
    case WriteResume(h) => h < |s.handlers| && s.handlers[h].Resuming?
    case Crash(h) => h < |s.handlers|
  }

  ghost function Apply(owner: AdId -> UserId, s: State, a: Action): State
    requires Enabled(owner, s, a)
  {
    match a
    case CreatePayment(id, payer, provider, sum) => s.(db := CreatePaymentTx(s.db, id, payer, provider, sum).value)
    case SetExternalId(id, externalId) => s.(db := SetExternalIdTx(s.db, id, externalId).value)
    case ConfirmPayment(id, externalId) => s.(db := ConfirmPaymentTx(s.db, id, externalId).value)
    case FailPayment(id, outcome) => s.(db := FailPaymentTx(s.db, id, outcome).value)
    case Charge(user, ad, price, rows, event) =>
      s.(db := DebitTx(s.db, user, price, Purchase, Some(ForAd(ad))).value,
         sagas := s.sagas + [Charged(user, ad, price, rows, event)])
    case Activate(k) =>
      s.(db := ActivateTx(s.db, s.sagas[k].rows, s.sagas[k].event), sagas := s.sagas[k := Over])
    case ActivateUnheard(k) =>
      s.(db := ActivateTx(s.db, s.sagas[k].rows, s.sagas[k].event),
         sagas := s.sagas[k := Failing(s.sagas[k].user, s.sagas[k].ad, s.sagas[k].price, true)])
    case FailActivation(k) =>
      s.(sagas := s.sagas[k := Failing(s.sagas[k].user, s.sagas[k].ad, s.sagas[k].price, false)])
    case Compensate(k) =>
      var r := RefundTx(s.db, s.sagas[k].user, s.sagas[k].price, Some(ForAd(s.sagas[k].ad)), "activation_failed");
      s.(db := if r.Ok? then r.value else s.db, sagas := s.sagas[k := Over],
         givenAway := if s.sagas[k].delivered then s.givenAway + [s.sagas[k]] else s.givenAway)
    case Abandon(k) => s.(sagas := s.sagas[k := Over])
    case SuspendAd(ad, now) => s.(db := SuspendTx(s.db, ad, now))
    case ReadForRefund(ad, now, reason) =>
      var rows := ListRows(s.db.promotions, ad, None);
      s.(handlers := s.handlers + [Refunding(ad, LastLiveUser(rows).value, Sum(rows, RefundDue(now)), reason)])
    case WriteRefund(h) =>
      var w := s.handlers[h];
      s.(db := RefundPromotionsTx(s.db, w.ad, w.user, w.amount, w.reason), handlers := s.handlers[h := Finished])
    case ReadForResume(ad, title, now) =>
      var event := ResumeTopEvent(ListRows(s.db.promotions, ad, Some(Suspended)), ad, title, now);
      s.(handlers := s.handlers + [Resuming(ad, title, now, event)])
    case WriteResume(h) =>
      var w := s.handlers[h];
      s.(db := ResumeTx(s.db, w.ad, w.now, w.event), handlers := s.handlers[h := Finished])
    case Crash(h) => s.(handlers := s.handlers[h := Finished])
  }

  ghost predicate Run(owner: AdId -> UserId, states: seq<State>, actions: seq<Action>) {
    && |states| == |actions| + 1
    && states[0] == INIT
    && forall i {:trigger actions[i]} :: 0 <= i < |actions| ==>
         Enabled(owner, states[i], actions[i]) && states[i + 1] == Apply(owner, states[i], actions[i])
  }

  /* One lifecycle handler at a time: enough to ask it per ad. */

  ghost predicate Busy(s: State, ad: AdId) {
    exists h :: 0 <= h < |s.handlers| && !s.handlers[h].Finished? && s.handlers[h].ad == ad
  }

  ghost predicate Serial(s: State, a: Action) {
    (a.SuspendAd? || a.ReadForRefund? || a.ReadForResume?) ==> !Busy(s, a.ad)
  }

  ghost predicate SerialRun(owner: AdId -> UserId, states: seq<State>, actions: seq<Action>) {
    Run(owner, states, actions) && forall i {:trigger actions[i]} :: 0 <= i < |actions| ==> Serial(states[i], actions[i])
  }

  /* What an ad's owner paid, got back, and still holds in services or in flight. */

  function PurchaseOf(ad: AdId): Posting -> int {
    (p: Posting) => if p.account == UserWallet && p.kind == Purchase && p.reference == Some(ForAd(ad)) then p.amount else 0
  }

  function RefundOf(ad: AdId): Posting -> int {
    (p: Posting) => if p.account == UserWallet && p.kind == Refund && p.reference == Some(ForAd(ad)) then p.amount else 0
  }

  function LiveOf(ad: AdId): AdPromotion -> int {
    (p: AdPromotion) => if p.adId == ad && IsLive(p.status) then p.amount else 0
  }

  function InFlightOf(ad: AdId): Saga -> int {
    (saga: Saga) => if !saga.Over? && !IsDelivered(saga) && saga.ad == ad then saga.price else 0
  }

  /** A purchase whose rows were committed unheard. */
  predicate IsDelivered(saga: Saga) { saga.Failing? && saga.delivered }

  function GiftOf(ad: AdId): Saga -> int {
    (saga: Saga) => if !saga.Over? && saga.ad == ad then saga.price else 0
  }

  function Paid(db: Db, ad: AdId): int { Sum(db.ledger, PurchaseOf(ad)) }

  function Returned(db: Db, ad: AdId): int { Sum(db.ledger, RefundOf(ad)) }

  function Live(db: Db, ad: AdId): int { Sum(db.promotions, LiveOf(ad)) }

  function InFlight(s: State, ad: AdId): int { Sum(s.sagas, InFlightOf(ad)) }

  /** What the platform has given away: the price of services it delivered and paid back. */
  function GivenAway(s: State, ad: AdId): int { Sum(s.givenAway, GiftOf(ad)) }

  /** What it has kept of the money paid for an ad, had it been paid for those as well. */
  function Retained(s: State, ad: AdId): int {
    Paid(s.db, ad) + GivenAway(s, ad) - Returned(s.db, ad) - Live(s.db, ad) - InFlight(s, ad)
  }

  ghost predicate RowsInv(owner: AdId -> UserId, promotions: seq<AdPromotion>) {
    forall i :: 0 <= i < |promotions| ==>
      var p := promotions[i];
      && 0 <= p.amount <= MAX_INT64
      && p.userId == owner(p.adId)
      && (p.status.Suspended? ==> p.suspendedAt.Some?)
      && (p.status.Active? ==> p.suspendedAt.None?)
  }

  ghost predicate SagasInv(owner: AdId -> UserId, sagas: seq<Saga>) {
    forall k :: 0 <= k < |sagas| && !sagas[k].Over? ==>
      && 0 < sagas[k].price <= MAX_INT64 && sagas[k].user == owner(sagas[k].ad)
      && (sagas[k].Charged? ==>
            PlannedRows(sagas[k].rows, sagas[k].user, sagas[k].ad, sagas[k].price) && sagas[k].event.PromotionActivated?)
  }

  /** What a handler read is still good for what it will write. */
  ghost predicate HandlerInv(owner: AdId -> UserId, db: Db, w: Handler) {
    match w
    case Refunding(ad, user, amount, _) => user == owner(ad) && amount <= Live(db, ad)
    case Resuming(ad, title, now, event) =>
      event == ResumeTopEvent(ListRows(db.promotions, ad, Some(Suspended)), ad, title, now)
    case Finished => true
  }

  ghost predicate HandlersInv(owner: AdId -> UserId, s: State) {
    && (forall h :: 0 <= h < |s.handlers| ==> HandlerInv(owner, s.db, s.handlers[h]))
    && (forall h, k :: 0 <= h < k < |s.handlers| && !s.handlers[h].Finished? && !s.handlers[k].Finished? ==>
          s.handlers[h].ad != s.handlers[k].ad)
  }

  /** Money moved on account of an ad moved on its owner's wallet. */
  ghost predicate OwnersInv(owner: AdId -> UserId, ledger: seq<Posting>) {
    forall i :: 0 <= i < |ledger| ==>
      ledger[i].account == UserWallet && ledger[i].reference.Some? && ledger[i].reference.value.ForAd? ==>
        ledger[i].walletUser == Some(owner(ledger[i].reference.value.adId))
  }

  ghost predicate Inv(owner: AdId -> UserId, s: State) {
    && RowsInv(owner, s.db.promotions)
    && SagasInv(owner, s.sagas)
    && HandlersInv(owner, s)
    && OwnersInv(owner, s.db.ledger)
    && forall ad :: 0 <= Retained(s, ad)
  }

  /** Money kept for an ad never shrinks. */
  ghost predicate RetainedGrows(s: State, s': State) {
    forall ad :: Retained(s, ad) <= Retained(s', ad)
  }

  /* Rows */

  lemma PlannedAmounts(rows: seq<AdPromotion>, user: UserId, ad: AdId, price: int, other: AdId)
    requires PlannedRows(rows, user, ad, price)
    ensures Sum(rows, LiveOf(other)) == if other == ad && rows != [] then price else 0
  {
    if rows != [] {
      assert rows == [rows[0]] + rows[1..];
      SumConcat([rows[0]], rows[1..], LiveOf(other));
      SumSingleton(rows[0], LiveOf(other));
      SumZero(rows[1..], LiveOf(other));
    }
  }

  lemma RefundAtMostPrice(p: AdPromotion, now: Time)
    requires 0 <= p.amount <= MAX_INT64
    ensures RefundAmount(p, now) <= p.amount
  {
    if ProductFits(p, now) {
      RefundWithinPrice(p, now);
    } else {
      RefundAmountUnfolds(p, now);
      var x, total := p.amount * UnusedSeconds(p, now), TotalSeconds(p);
      if p.amount > 0 && total > 0 {
        WrappedDivisionIsWrong(x, total);
        FloorIsDivision(x, total);
        MulNonNegative(p.amount, UnusedSeconds(p, now));
        FloorWithin(x / total, p.amount, UnusedSeconds(p, now), total);
      }
    }
  }

  /** What is due on an ad's listed rows is covered by its live rows, and its payee owns them. */
  lemma {:induction false} ListedRefundCovered(owner: AdId -> UserId, promotions: seq<AdPromotion>, ad: AdId, now: Time)
    requires RowsInv(owner, promotions)
    ensures var rows := ListRows(promotions, ad, None);
            && Sum(rows, RefundDue(now)) <= Sum(promotions, LiveOf(ad))
            && forall i :: 0 <= i < |rows| ==> rows[i].userId == owner(ad)
  {
    if promotions != [] {
      var init, p := promotions[..|promotions| - 1], promotions[|promotions| - 1];
      ListedRefundCovered(owner, init, ad, now);
      RefundAtMostPrice(p, now);
      if p.adId == ad {
        SumConcat([p], ListRows(init, ad, None), RefundDue(now));
        SumSingleton(p, RefundDue(now));
      } else {
        assert [] + ListRows(init, ad, None) == ListRows(init, ad, None);
      }
    }
  }

  lemma {:induction false} LastLiveUserIsListed(rows: seq<AdPromotion>, user: UserId)
    requires forall i :: 0 <= i < |rows| ==> rows[i].userId == user
    ensures LastLiveUser(rows).Some? ==> LastLiveUser(rows).value == user
  {
    if rows != [] {
      LastLiveUserIsListed(rows[..|rows| - 1], user);
    }
  }

  /** Rows that keep what a listing shows of them are listed the same. */
  lemma {:induction false} ListUnchanged(before: seq<AdPromotion>, after: seq<AdPromotion>, ad: AdId, status: PromotionStatus)
    requires |before| == |after|
    requires forall i :: 0 <= i < |before| ==>
               after[i].adId == before[i].adId && (before[i].adId == ad ==> after[i] == before[i])
    ensures ListRows(after, ad, Some(status)) == ListRows(before, ad, Some(status))
  {
    if before != [] {
      var n := |before| - 1;
      assert forall i :: 0 <= i < n ==> after[..n][i] == after[i] && before[..n][i] == before[i];
      ListUnchanged(before[..n], after[..n], ad, status);
    }
  }

  lemma {:induction false} ListIgnoresNew(promotions: seq<AdPromotion>, rows: seq<AdPromotion>, ad: AdId, status: PromotionStatus)
    requires forall i :: 0 <= i < |rows| ==> rows[i].status != status
    ensures ListRows(promotions + rows, ad, Some(status)) == ListRows(promotions, ad, Some(status))
  {
    if rows == [] {
      assert promotions + rows == promotions;
    } else {
      var all := promotions + rows;
      assert all[..|all| - 1] == promotions + rows[..|rows| - 1];
      ListIgnoresNew(promotions, rows[..|rows| - 1], ad, status);
    }
  }

  /* Each kind of step */

  /** A step that only adds postings unrelated to ads keeps everything about ads. */
  lemma UnrelatedPostings(owner: AdId -> UserId, s: State, db': Db, kind: Kind, id: PaymentId, user: UserId, amount: int)
    requires Inv(owner, s)
    requires db'.promotions == s.db.promotions
    requires db'.ledger == s.db.ledger
          || db'.ledger == s.db.ledger + Pair(s.db.nextOperation, kind, Some(ForPayment(id)), user, Credit, ExternalTopup, amount)
    ensures Inv(owner, s.(db := db')) && RetainedGrows(s, s.(db := db'))
  {
    var s' := s.(db := db');
    forall ad ensures Retained(s', ad) == Retained(s, ad) {
      SumPair(s.db.ledger, s.db.nextOperation, kind, Some(ForPayment(id)), user, Credit, ExternalTopup, amount, PurchaseOf(ad));
      SumPair(s.db.ledger, s.db.nextOperation, kind, Some(ForPayment(id)), user, Credit, ExternalTopup, amount, RefundOf(ad));
    }
    forall h | 0 <= h < |s'.handlers| ensures HandlerInv(owner, s'.db, s'.handlers[h]) {
      assert HandlerInv(owner, s.db, s.handlers[h]);
    }
  }

  lemma PaymentStep(owner: AdId -> UserId, s: State, a: Action, s': State)
    requires Inv(owner, s) && Enabled(owner, s, a) && s' == Apply(owner, s, a)
    requires a.CreatePayment? || a.SetExternalId? || a.ConfirmPayment? || a.FailPayment?
    ensures Inv(owner, s') && RetainedGrows(s, s')
  {
    var db' := s'.db;
    if a.ConfirmPayment? && s.db.payments[a.id].status.Pending? {
      var p := s.db.payments[a.id];
      UnrelatedPostings(owner, s, db', Topup, a.id, p.userId, p.amount);
    } else {
      UnrelatedPostings(owner, s, db', Topup, a.id, 0, 0);
    }
  }

  /** Handlers read only the rows of services. */
  lemma HandlersKept(owner: AdId -> UserId, s: State, s': State)
    requires HandlersInv(owner, s) && s'.handlers == s.handlers && s'.db.promotions == s.db.promotions
    ensures HandlersInv(owner, s')
  {
    forall h | 0 <= h < |s'.handlers| ensures HandlerInv(owner, s'.db, s'.handlers[h]) {
      assert HandlerInv(owner, s.db, s.handlers[h]);
    }
  }

  /** A posting pair about an ad counts for that ad, as a purchase or as a refund. */
  lemma AdPair(db: Db, db': Db, kind: Kind, ad: AdId, user: UserId, direction: Direction, counter: Account, amount: int, other: AdId)
    requires db'.ledger == db.ledger + Pair(db.nextOperation, kind, Some(ForAd(ad)), user, direction, counter, amount)
    requires kind == Purchase || kind == Refund
    requires counter != UserWallet
    ensures Paid(db', other) == Paid(db, other) + if kind == Purchase && other == ad then amount else 0
    ensures Returned(db', other) == Returned(db, other) + if kind == Refund && other == ad then amount else 0
  {
    SumPair(db.ledger, db.nextOperation, kind, Some(ForAd(ad)), user, direction, counter, amount, PurchaseOf(other));
    SumPair(db.ledger, db.nextOperation, kind, Some(ForAd(ad)), user, direction, counter, amount, RefundOf(other));
    hide Sum;
  }

  lemma ChargeStep(owner: AdId -> UserId, s: State, a: Action, s': State)
    requires Inv(owner, s) && Enabled(owner, s, a) && s' == Apply(owner, s, a) && a.Charge?
    ensures Inv(owner, s') && RetainedGrows(s, s')
  {
    HandlersKept(owner, s, s');
    hide HandlersInv;
    forall ad ensures Retained(s', ad) == Retained(s, ad) {
      AdPair(s.db, s'.db, Purchase, a.ad, a.user, Debit, PromotionRevenue, a.price, ad);
      SumSnoc(s.sagas, s'.sagas[|s.sagas|], InFlightOf(ad));
      hide Sum;
      hide Paid;
      hide Returned;
    }
  }

  lemma ActivateStep(owner: AdId -> UserId, s: State, a: Action, s': State)
    requires Inv(owner, s) && Enabled(owner, s, a) && s' == Apply(owner, s, a)
    requires a.Activate? || a.ActivateUnheard?
    ensures Inv(owner, s') && RetainedGrows(s, s')
  {
    var saga := s.sagas[a.saga];
    forall ad
      ensures Retained(s, ad) <= Retained(s', ad) && Live(s.db, ad) <= Live(s'.db, ad)
    {
      SumConcat(s.db.promotions, saga.rows, LiveOf(ad));
      PlannedAmounts(saga.rows, saga.user, saga.ad, saga.price, ad);
      SumUpdate(s.sagas, a.saga, s'.sagas[a.saga], InFlightOf(ad));
    }
    forall h | 0 <= h < |s'.handlers| ensures HandlerInv(owner, s'.db, s'.handlers[h]) {
      assert HandlerInv(owner, s.db, s.handlers[h]);
      if s.handlers[h].Resuming? {
        ListIgnoresNew(s.db.promotions, saga.rows, s.handlers[h].ad, Suspended);
      }
    }
  }

  lemma SagaStep(owner: AdId -> UserId, s: State, a: Action, s': State)
    requires Inv(owner, s) && Enabled(owner, s, a) && s' == Apply(owner, s, a) && (a.FailActivation? || a.Abandon?)
    ensures Inv(owner, s') && RetainedGrows(s, s')
  {
    HandlersKept(owner, s, s');
    hide HandlersInv;
    forall ad ensures Retained(s, ad) <= Retained(s', ad) {
      SumUpdate(s.sagas, a.saga, s'.sagas[a.saga], InFlightOf(ad));
      hide Sum;
    }
  }

  lemma CompensationBalances(owner: AdId -> UserId, s: State, a: Action, s': State, ad: AdId)
    requires Enabled(owner, s, a) && s' == Apply(owner, s, a) && a.Compensate? && s.sagas[a.saga].price > 0
    ensures Retained(s', ad) == Retained(s, ad)
  {
    var saga := s.sagas[a.saga];
    SumUpdate(s.sagas, a.saga, Over, InFlightOf(ad));
    SumSnoc(s.givenAway, saga, GiftOf(ad));
    AdPair(s.db, s'.db, Refund, saga.ad, saga.user, Credit, ExternalTopup, saga.price, ad);
    assert Live(s'.db, ad) == Live(s.db, ad);
    hide Sum;
    hide Paid;
    hide Returned;
    hide Live;
  }

  /** Money in flight goes back; what was delivered as well is given away. */
  lemma CompensateStep(owner: AdId -> UserId, s: State, a: Action, s': State)
    requires Inv(owner, s) && Enabled(owner, s, a) && s' == Apply(owner, s, a) && a.Compensate?
    ensures Inv(owner, s') && RetainedGrows(s, s')
  {
    HandlersKept(owner, s, s');
    hide HandlersInv;
    hide RowsInv;
    forall ad ensures Retained(s', ad) == Retained(s, ad) {
      CompensationBalances(owner, s, a, s', ad);
      hide Retained;
    }
  }

  lemma SuspendStep(owner: AdId -> UserId, s: State, a: Action, s': State)
    requires Inv(owner, s) && Enabled(owner, s, a) && s' == Apply(owner, s, a) && Serial(s, a) && a.SuspendAd?
    ensures Inv(owner, s') && RetainedGrows(s, s')
  {
    forall ad ensures Retained(s', ad) == Retained(s, ad) && Live(s'.db, ad) == Live(s.db, ad) {
      SumUnchanged(s.db.promotions, LiveOf(ad), s'.db.promotions, LiveOf(ad));
    }
    forall h | 0 <= h < |s'.handlers| ensures HandlerInv(owner, s'.db, s'.handlers[h]) {
      assert HandlerInv(owner, s.db, s.handlers[h]);
      if s.handlers[h].Resuming? {
        ListUnchanged(s.db.promotions, s'.db.promotions, s.handlers[h].ad, Suspended);
      }
    }
  }

  lemma ReadStep(owner: AdId -> UserId, s: State, a: Action, s': State)
    requires Inv(owner, s) && Enabled(owner, s, a) && s' == Apply(owner, s, a) && Serial(s, a)
    requires a.ReadForRefund? || a.ReadForResume?
    ensures Inv(owner, s') && RetainedGrows(s, s')
  {
    if a.ReadForRefund? {
      ListedRefundCovered(owner, s.db.promotions, a.ad, a.now);
      LastLiveUserIsListed(ListRows(s.db.promotions, a.ad, None), owner(a.ad));
    }
    assert forall ad :: Retained(s', ad) == Retained(s, ad);
    forall h | 0 <= h < |s'.handlers| ensures HandlerInv(owner, s'.db, s'.handlers[h]) {
      if h < |s.handlers| {
        assert HandlerInv(owner, s.db, s.handlers[h]);
      }
    }
  }

  /** Closing an ad's rows frees what they held, which covers what is paid back. */
  lemma RefundIsCovered(s: State, w: Handler, ad: AdId)
    requires w.Refunding? && w.amount <= Live(s.db, w.ad)
    requires forall i :: 0 <= i < |s.db.promotions| ==> 0 <= s.db.promotions[i].amount
    ensures var db' := RefundPromotionsTx(s.db, w.ad, w.user, w.amount, w.reason);
            && Paid(s.db, ad) == Paid(db', ad)
            && Returned(db', ad) + Live(db', ad) <= Returned(s.db, ad) + Live(s.db, ad)
            && (ad != w.ad ==> Live(db', ad) == Live(s.db, ad))
  {
    if HasLive(s.db.promotions, w.ad) {
      var rows := Map(s.db.promotions, (p: AdPromotion) => RefundRow(p, w.ad));
      if w.amount > 0 {
        AdPair(s.db, RefundPromotionsTx(s.db, w.ad, w.user, w.amount, w.reason), Refund, w.ad, w.user, Credit, ExternalTopup, w.amount, ad);
      }
      if ad == w.ad {
        SumZero(rows, LiveOf(ad));
        SumNonNegative(s.db.promotions, LiveOf(ad));
      } else {
        SumUnchanged(s.db.promotions, LiveOf(ad), rows, LiveOf(ad));
      }
      assert RefundPromotionsTx(s.db, w.ad, w.user, w.amount, w.reason).promotions == rows;
    }
  }

  /** Writing one handler's ad leaves what the others read of theirs. */
  lemma OtherHandlersKept(owner: AdId -> UserId, s: State, db': Db, h: nat)
    requires HandlersInv(owner, s) && h < |s.handlers| && !s.handlers[h].Finished?
    requires forall ad :: ad != s.handlers[h].ad ==> Live(db', ad) == Live(s.db, ad)
    requires |db'.promotions| == |s.db.promotions|
    requires forall i :: 0 <= i < |s.db.promotions| ==>
               && db'.promotions[i].adId == s.db.promotions[i].adId
               && (s.db.promotions[i].adId != s.handlers[h].ad ==> db'.promotions[i] == s.db.promotions[i])
    ensures HandlersInv(owner, State(db', s.sagas, s.handlers[h := Finished], s.givenAway))
  {
    var after := s.handlers[h := Finished];
    forall k | 0 <= k < |after| ensures HandlerInv(owner, db', after[k]) {
      if k != h {
        assert HandlerInv(owner, s.db, s.handlers[k]);
        if after[k].Resuming? {
          ListUnchanged(s.db.promotions, db'.promotions, after[k].ad, Suspended);
        }
      }
    }
  }

  lemma WriteRefundStep(owner: AdId -> UserId, s: State, a: Action, s': State)
    requires Inv(owner, s) && Enabled(owner, s, a) && s' == Apply(owner, s, a) && a.WriteRefund?
    ensures Inv(owner, s') && RetainedGrows(s, s')
  {
    var w := s.handlers[a.handler];
    assert HandlerInv(owner, s.db, w);
    forall ad
      ensures Retained(s, ad) <= Retained(s', ad)
      ensures ad != w.ad ==> Live(s'.db, ad) == Live(s.db, ad)
    {
      RefundIsCovered(s, w, ad);
      hide Paid;
      hide Returned;
      hide Live;
      hide InFlight;
      hide GivenAway;
    }
    OtherHandlersKept(owner, s, s'.db, a.handler);
  }

  lemma WriteResumeStep(owner: AdId -> UserId, s: State, a: Action, s': State)
    requires Inv(owner, s) && Enabled(owner, s, a) && s' == Apply(owner, s, a) && a.WriteResume?
    ensures Inv(owner, s') && RetainedGrows(s, s')
  {
    forall ad ensures Retained(s', ad) == Retained(s, ad) && Live(s'.db, ad) == Live(s.db, ad) {
      SumUnchanged(s.db.promotions, LiveOf(ad), s'.db.promotions, LiveOf(ad));
    }
    OtherHandlersKept(owner, s, s'.db, a.handler);
  }

  lemma StepKeepsInv(owner: AdId -> UserId, s: State, a: Action, s': State)
    requires Inv(owner, s) && Enabled(owner, s, a) && s' == Apply(owner, s, a) && Serial(s, a)
    ensures Inv(owner, s') && RetainedGrows(s, s')
  {
    match a
    case CreatePayment(_, _, _, _) => PaymentStep(owner, s, a, s');
    case SetExternalId(_, _) => PaymentStep(owner, s, a, s');
    case ConfirmPayment(_, _) => PaymentStep(owner, s, a, s');
    case FailPayment(_, _) => PaymentStep(owner, s, a, s');
    case Charge(_, _, _, _, _) => ChargeStep(owner, s, a, s');
    case Activate(_) => ActivateStep(owner, s, a, s');
    case ActivateUnheard(_) => ActivateStep(owner, s, a, s');
    case FailActivation(_) => SagaStep(owner, s, a, s');
    case Compensate(_) => CompensateStep(owner, s, a, s');
    case Abandon(_) => SagaStep(owner, s, a, s');
    case SuspendAd(_, _) => SuspendStep(owner, s, a, s');
    case ReadForRefund(_, _, _) => ReadStep(owner, s, a, s');
    case WriteRefund(_) => WriteRefundStep(owner, s, a, s');
    case ReadForResume(_, _, _) => ReadStep(owner, s, a, s');
    case WriteResume(_) => WriteResumeStep(owner, s, a, s');
    case Crash(h) =>
      assert forall ad :: Retained(s', ad) == Retained(s, ad);
      forall k | 0 <= k < |s'.handlers| ensures HandlerInv(owner, s'.db, s'.handlers[k]) {
        assert HandlerInv(owner, s.db, s.handlers[k]);
      }
  }

  lemma {:induction false} RunKeepsInv(owner: AdId -> UserId, states: seq<State>, actions: seq<Action>, i: nat)
    requires SerialRun(owner, states, actions) && i < |states|
    ensures Inv(owner, states[i])
  {
    if i > 0 {
      RunKeepsInv(owner, states, actions, i - 1);
      StepKeepsInv(owner, states[i - 1], actions[i - 1], states[i]);
    }
  }

  /** No activation of the ad's services was committed and taken for failed. */
  ghost predicate AllHeard(states: seq<State>, actions: seq<Action>, i: nat, ad: AdId)
    requires i <= |actions| < |states|
  {
    forall k {:trigger actions[k]} :: 0 <= k < i && actions[k].ActivateUnheard? && actions[k].saga < |states[k].sagas| ==>
      states[k].sagas[actions[k].saga].Over? || states[k].sagas[actions[k].saga].ad != ad
  }

  lemma {:induction false} NothingGivenAway(owner: AdId -> UserId, states: seq<State>, actions: seq<Action>, i: nat, ad: AdId)
    requires Run(owner, states, actions) && i < |states| && AllHeard(states, actions, i, ad)
    ensures GivenAway(states[i], ad) == 0
    ensures forall k :: 0 <= k < |states[i].sagas| && states[i].sagas[k].Failing? && states[i].sagas[k].ad == ad ==>
              !states[i].sagas[k].delivered
  {
    if i > 0 {
      NothingGivenAway(owner, states, actions, i - 1, ad);
      var s, a := states[i - 1], actions[i - 1];
      assert Enabled(owner, s, a) && states[i] == Apply(owner, s, a);
      if a.Compensate? {
        SumSnoc(s.givenAway, s.sagas[a.saga], GiftOf(ad));
      }
    }
  }

  /** For every ad, at every point of every run: what was returned, is running or is in flight exceeds
      what was paid by no more than was given away; nothing is while every committed activation is
      heard of, and then refunds never exceed purchases. */
  lemma RefundsNeverExceedPurchases(owner: AdId -> UserId, states: seq<State>, actions: seq<Action>, i: nat, ad: AdId)
    requires SerialRun(owner, states, actions) && i < |states|
    ensures var s := states[i];
            && Returned(s.db, ad) <= Paid(s.db, ad) + GivenAway(s, ad)
            && Live(s.db, ad) + InFlight(s, ad) <= Paid(s.db, ad) + GivenAway(s, ad) - Returned(s.db, ad)
            && (AllHeard(states, actions, i, ad) ==> GivenAway(s, ad) == 0)
  {
    RunKeepsInv(owner, states, actions, i);
    assert 0 <= Retained(states[i], ad);
    SumNonNegative(states[i].db.promotions, LiveOf(ad));
    SumNonNegative(states[i].sagas, InFlightOf(ad));
    if AllHeard(states, actions, i, ad) {
      NothingGivenAway(owner, states, actions, i, ad);
    }
  }

  /** Refunds and purchases of an ad only ever move its owner's money. */
  lemma OnlyTheOwnerIsRefunded(owner: AdId -> UserId, states: seq<State>, actions: seq<Action>, i: nat, k: nat)
    requires SerialRun(owner, states, actions) && i < |states| && k < |states[i].db.ledger|
    ensures var p := states[i].db.ledger[k];
            p.account == UserWallet && p.reference.Some? && p.reference.value.ForAd? ==>
              p.walletUser == Some(owner(p.reference.value.adId))
  {
    RunKeepsInv(owner, states, actions, i);
  }

  lemma ConfirmKeepsBooks(db: Db, id: PaymentId, externalId: string)
    requires Books(db) && PaymentsPriced(db) && ConfirmPaymentTx(db, id, externalId).Ok?
    ensures Books(ConfirmPaymentTx(db, id, externalId).value)
  {
    if db.payments[id].status.Pending? {
      var after := ConfirmPaymentTx(db, id, externalId).value;
      var p := after.payments[id];
      var marked := db.(payments := after.payments);
      BooksIgnoreOtherTables(db, marked);
      CreditKeepsBooks(marked, p.userId, p.amount, Topup, Some(ForPayment(id)));
      BooksIgnoreOtherTables(CreditTx(marked, p.userId, p.amount, Topup, Some(ForPayment(id))), after);
    }
  }

  lemma RefundKeepsBooks(db: Db, ad: AdId, user: UserId, amount: int, reason: string)
    requires Books(db)
    ensures Books(RefundPromotionsTx(db, ad, user, amount, reason))
  {
    var after := RefundPromotionsTx(db, ad, user, amount, reason);
    var closed := db.(promotions := after.promotions);
    BooksIgnoreOtherTables(db, closed);
    if HasLive(db.promotions, ad) && amount > 0 {
      CreditKeepsBooks(closed, user, amount, Refund, Some(ForAd(ad)));
      BooksIgnoreOtherTables(CreditTx(closed, user, amount, Refund, Some(ForAd(ad))), after);
    } else {
      BooksIgnoreOtherTables(closed, after);
    }
  }

  ghost predicate SagasPriced(sagas: seq<Saga>) {
    forall k :: 0 <= k < |sagas| && !sagas[k].Over? ==> 0 < sagas[k].price
  }

  ghost predicate PaymentsPriced(db: Db) {
    forall id :: id in db.payments ==> 0 < db.payments[id].amount
  }

  ghost predicate BooksInv(s: State) {
    Books(s.db) && SagasPriced(s.sagas) && PaymentsPriced(s.db)
  }

  lemma PricesKept(owner: AdId -> UserId, s: State, a: Action, s': State)
    requires SagasPriced(s.sagas) && PaymentsPriced(s.db) && Enabled(owner, s, a) && s' == Apply(owner, s, a)
    ensures SagasPriced(s'.sagas) && PaymentsPriced(s'.db)
  {
  }

  /** Nothing else moves money. */
  lemma MoneyStays(owner: AdId -> UserId, s: State, a: Action, s': State)
    requires Enabled(owner, s, a) && s' == Apply(owner, s, a)
    requires !a.ConfirmPayment? && !a.Charge? && !a.Compensate? && !a.WriteRefund?
    ensures s'.db.wallets == s.db.wallets && s'.db.ledger == s.db.ledger && s'.db.nextOperation == s.db.nextOperation
  {
  }

  lemma CompensationKeepsBooks(owner: AdId -> UserId, s: State, k: nat, s': State)
    requires Books(s.db) && SagasPriced(s.sagas) && Enabled(owner, s, Compensate(k)) && s' == Apply(owner, s, Compensate(k))
    ensures Books(s'.db)
  {
    hide Books;
    var saga := s.sagas[k];
    CreditKeepsBooks(s.db, saga.user, saga.price, Refund, Some(ForAd(saga.ad)));
    BooksIgnoreOtherTables(CreditTx(s.db, saga.user, saga.price, Refund, Some(ForAd(saga.ad))), s'.db);
  }

  /** The books balance and no wallet is overdrawn in every run, serial handlers or not. */
  lemma StepKeepsBooks(owner: AdId -> UserId, s: State, a: Action, s': State)
    requires BooksInv(s) && Enabled(owner, s, a) && s' == Apply(owner, s, a)
    ensures BooksInv(s')
  {
    PricesKept(owner, s, a, s');
    hide Books;
    hide SagasPriced;
    hide PaymentsPriced;
    match a
    case ConfirmPayment(id, externalId) =>
      ConfirmKeepsBooks(s.db, id, externalId);
    case Charge(user, ad, price, _, _) =>
      DebitKeepsBooks(s.db, user, price, Some(ForAd(ad)));
    case Compensate(k) =>
      CompensationKeepsBooks(owner, s, k, s');
    case WriteRefund(h) =>
      var w := s.handlers[h];
      RefundKeepsBooks(s.db, w.ad, w.user, w.amount, w.reason);
    case _ =>
      MoneyStays(owner, s, a, s');
      BooksIgnoreOtherTables(s.db, s'.db);
  }

  lemma {:induction false} RunKeepsBooks(owner: AdId -> UserId, states: seq<State>, actions: seq<Action>, i: nat)
    requires Run(owner, states, actions) && i < |states|
    ensures BooksInv(states[i])
  {
    if i == 0 {
      NoBooksYet(states[0]);
    } else {
      RunKeepsBooks(owner, states, actions, i - 1);
      StepKeepsBooks(owner, states[i - 1], actions[i - 1], states[i]);
    }
  }

  lemma NoBooksYet(s: State)
    requires s.db.wallets == map[] && s.db.ledger == [] && s.db.payments == map[] && s.sagas == []
    ensures BooksInv(s)
  {
  }
}
