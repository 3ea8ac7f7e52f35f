/**
 The tables of the payments service and what each committed transaction does to
 them (services/payments/internal/repo). A transaction that returns an error is
 rolled back, so only its error remains.
 */
module PaymentsDb {
  import opened Clock
  import opened Collections
  import opened RefundArithmetic

  type PaymentId = nat

  datatype Ref = ForAd(adId: AdId) | ForPayment(paymentId: PaymentId)
  datatype Kind = Topup | Purchase | Refund
  datatype Account = UserWallet | ExternalTopup | PromotionRevenue | RefundSource
  datatype Direction = Debit | Credit

  datatype Posting = Posting(
    operation: nat,
    kind: Kind,
    account: Account,
    walletUser: Option<UserId>,
    direction: Direction,
    amount: int,
    reference: Option<Ref>)

  datatype Wallet = Wallet(balance: int, version: nat)

  datatype Provider = Mock | Payme | Click
  datatype PaymentStatus = Pending | Succeeded | Failed | Canceled

  datatype Payment = Payment(
    userId: UserId,
    provider: Provider,
    amount: int,
    status: PaymentStatus,
    externalId: Option<string>)

  datatype Event =
    | PromotionActivated(adId: AdId, userId: UserId, title: string, serviceCode: string,
                         isTop: bool, rank: int, endsAt: Option<Time>)
    | WalletRefunded(userId: UserId, amount: int, reason: string)
    | PaymentSucceeded(paymentId: PaymentId, userId: UserId, provider: Provider, amount: int)
    | PaymentFailed(paymentId: PaymentId, userId: UserId, provider: Provider, amount: int)

  datatype Error =
    | InvalidAmount | InsufficientFunds | PaymentNotFound | PaymentState | UniqueViolation
    | AdNotFound | NotAdOwner | AdNotPromotable | NoPrice | EmptyPromotion
    | UnknownService | UnknownBundle | InvalidDuration | EventBuilding | Infrastructure

  datatype Db = Db(
    wallets: map<UserId, Wallet>,
    ledger: seq<Posting>,
    nextOperation: nat,  // operation ids are fresh
    payments: map<PaymentId, Payment>,
    promotions: seq<AdPromotion>,  // in insertion order
    outbox: seq<Event>)

  const EMPTY: Db := Db(map[], [], 0, map[], [], [])

  /* Wallet transactions */

  function BalanceOf(db: Db, user: UserId): int {
    if user in db.wallets then db.wallets[user].balance else 0
  }

  function VersionOf(db: Db, user: UserId): nat {
    if user in db.wallets then db.wallets[user].version else 0
  }

  /** The two postings of one operation: the user's side and the system account's. */
  function Pair(operation: nat, kind: Kind, reference: Option<Ref>, user: UserId,
                direction: Direction, counter: Account, amount: int): seq<Posting> {
    [Posting(operation, kind, UserWallet, Some(user), direction, amount, reference),
     Posting(operation, kind, counter, None, if direction == Credit then Debit else Credit, amount, reference)]
  }

  function CreditTx(db: Db, user: UserId, amount: int, kind: Kind, reference: Option<Ref>): Db {
    db.(wallets := db.wallets[user := Wallet(BalanceOf(db, user) + amount, VersionOf(db, user) + 1)],
        ledger := db.ledger + Pair(db.nextOperation, kind, reference, user, Credit, ExternalTopup, amount),
        nextOperation := db.nextOperation + 1)
  }

  function DebitTx(db: Db, user: UserId, amount: int, kind: Kind, reference: Option<Ref>): Result<Db, Error> {
    if amount <= 0 then Err(InvalidAmount)
    else if user !in db.wallets || db.wallets[user].balance < amount then Err(InsufficientFunds)
    else Ok(db.(
      wallets := db.wallets[user := Wallet(db.wallets[user].balance - amount, db.wallets[user].version + 1)],
      ledger := db.ledger + Pair(db.nextOperation, kind, reference, user, Debit, PromotionRevenue, amount),
      nextOperation := db.nextOperation + 1))
  }

  function RefundTx(db: Db, user: UserId, amount: int, reference: Option<Ref>, reason: string): Result<Db, Error> {
    if amount <= 0 then Err(InvalidAmount) else
    var paid := CreditTx(db, user, amount, Refund, reference);
    Ok(paid.(outbox := paid.outbox + [WalletRefunded(user, amount, reason)]))
  }

  /* Provider payments */

  predicate IsTerminal(status: PaymentStatus) {
    status.Succeeded? || status.Failed? || status.Canceled?
  }

  function CreatePaymentTx(db: Db, id: PaymentId, user: UserId, provider: Provider, amount: int): Result<Db, Error> {
    if amount <= 0 then Err(InvalidAmount)
    else if id in db.payments then Err(UniqueViolation)
    else Ok(db.(payments := db.payments[id := Payment(user, provider, amount, Pending, None)]))
  }

  /** Another payment of the same provider already carries this external id. */
  predicate ExternalIdTaken(db: Db, id: PaymentId, externalId: Option<string>)
    requires id in db.payments
  {
    externalId.Some? &&
    exists other :: other in db.payments && other != id &&
      db.payments[other].provider == db.payments[id].provider && db.payments[other].externalId == externalId
  }

  function SetExternalIdTx(db: Db, id: PaymentId, externalId: string): Result<Db, Error> {
    if id in db.payments && db.payments[id].status.Pending?
       && (db.payments[id].externalId.None? || db.payments[id].externalId == Some(externalId)) then
      if ExternalIdTaken(db, id, Some(externalId)) then Err(UniqueViolation)
      else Ok(db.(payments := db.payments[id := db.payments[id].(externalId := Some(externalId))]))
    else Ok(db)
  }

  function ConfirmPaymentTx(db: Db, id: PaymentId, externalId: string): Result<Db, Error> {
    if id !in db.payments then Err(PaymentNotFound)
    else if !db.payments[id].status.Pending? then Ok(db)
    else
      var p := db.payments[id].(
        status := Succeeded,
        externalId := if externalId == "" then db.payments[id].externalId else Some(externalId));
      if ExternalIdTaken(db, id, p.externalId) then Err(UniqueViolation) else
      var paid := CreditTx(db.(payments := db.payments[id := p]), p.userId, p.amount, Topup, Some(ForPayment(id)));
      Ok(paid.(outbox := paid.outbox + [PaymentSucceeded(id, p.userId, p.provider, p.amount)]))
  }

  function FailPaymentTx(db: Db, id: PaymentId, status: PaymentStatus): Result<Db, Error> {
    if !status.Failed? && !status.Canceled? then Err(PaymentState)
    else if id !in db.payments then Err(PaymentNotFound)
    else if !db.payments[id].status.Pending? then Ok(db)
    else
      var p := db.payments[id].(status := status);
      Ok(db.(payments := db.payments[id := p],
             outbox := db.outbox + [PaymentFailed(id, p.userId, p.provider, p.amount)]))
  }

  /* Paid services of an ad */

  predicate IsLive(status: PromotionStatus) {
    status.Active? || status.Suspended?
  }

  function ActivateTx(db: Db, rows: seq<AdPromotion>, ev: Event): Db {
    db.(promotions := db.promotions + rows, outbox := db.outbox + [ev])
  }

  function SuspendRow(p: AdPromotion, ad: AdId, now: Time): AdPromotion {
    if p.adId == ad && p.status.Active? then p.(status := Suspended, suspendedAt := Some(now)) else p
  }

  /** An end date moves on by the time spent frozen; SQL arithmetic on a missing date is NULL. */
  function ResumeRow(p: AdPromotion, ad: AdId, now: Time): AdPromotion {
    if p.adId == ad && p.status.Suspended? then
      p.(status := Active,
         endsAt := if p.endsAt.Some? && p.suspendedAt.Some?
                   then Some(p.endsAt.value + (now - p.suspendedAt.value)) else None,
         suspendedAt := None)
    else p
  }

  function RefundRow(p: AdPromotion, ad: AdId): AdPromotion {
    if p.adId == ad && IsLive(p.status) then p.(status := Refunded) else p
  }

  function SuspendTx(db: Db, ad: AdId, now: Time): Db {
    db.(promotions := Map(db.promotions, p => SuspendRow(p, ad, now)))
  }

  predicate HasSuspended(promotions: seq<AdPromotion>, ad: AdId) {
    exists i :: 0 <= i < |promotions| && promotions[i].adId == ad && promotions[i].status.Suspended?
  }

  predicate HasLive(promotions: seq<AdPromotion>, ad: AdId) {
    exists i :: 0 <= i < |promotions| && promotions[i].adId == ad && IsLive(promotions[i].status)
  }

  function ResumeTx(db: Db, ad: AdId, now: Time, ev: Option<Event>): Db {
    if !HasSuspended(db.promotions, ad) then db
    else db.(promotions := Map(db.promotions, p => ResumeRow(p, ad, now)),
             outbox := if ev.Some? then db.outbox + [ev.value] else db.outbox)
  }

  function RefundPromotionsTx(db: Db, ad: AdId, user: UserId, amount: int, reason: string): Db {
    if !HasLive(db.promotions, ad) then db else
    var closed := db.(promotions := Map(db.promotions, p => RefundRow(p, ad)));
    if amount <= 0 then closed else
    var paid := CreditTx(closed, user, amount, Refund, Some(ForAd(ad)));
    paid.(outbox := paid.outbox + [WalletRefunded(user, amount, reason)])
  }

  /** Freezing an ad's services and thawing them later moves the end of each that ran by the time
      between, and changes nothing else; thawing them at once changes nothing at all. */
  lemma FreezeThenThaw(db: Db, ad: AdId, frozen: Time, thawed: Time)
    requires !HasSuspended(db.promotions, ad)
    requires forall i :: 0 <= i < |db.promotions| && db.promotions[i].status.Active? ==> db.promotions[i].suspendedAt.None?
    ensures var after := ResumeTx(SuspendTx(db, ad, frozen), ad, thawed, None);
            && after == db.(promotions := after.promotions)
            && |after.promotions| == |db.promotions|
            && (forall i :: 0 <= i < |db.promotions| ==>
                  var p := db.promotions[i];
                  after.promotions[i] ==
                    if p.adId == ad && p.status.Active? && p.endsAt.Some?
                    then p.(endsAt := Some(p.endsAt.value + (thawed - frozen))) else p)
            && (thawed == frozen ==> after == db)
  {
    var between := SuspendTx(db, ad, frozen);
    if !HasSuspended(between.promotions, ad) {
      forall i | 0 <= i < |db.promotions| ensures between.promotions[i] == db.promotions[i]
                                          && !(db.promotions[i].adId == ad && db.promotions[i].status.Active?) {
        assert between.promotions[i] == SuspendRow(db.promotions[i], ad, frozen);
      }
    }
    var after := ResumeTx(between, ad, thawed, None);
    if thawed == frozen {
      assert after.promotions == db.promotions;
    }
  }

  predicate Matches(p: AdPromotion, ad: AdId, status: Option<PromotionStatus>) {
    p.adId == ad && (status.None? || p.status == status.value)
  }

  /** The rows of an ad in a given status (any status if none is given), newest first. */
  function ListRows(promotions: seq<AdPromotion>, ad: AdId, status: Option<PromotionStatus>): seq<AdPromotion> {
    if promotions == [] then [] else
    var p := promotions[|promotions| - 1];
    (if Matches(p, ad, status) then [p] else []) + ListRows(promotions[..|promotions| - 1], ad, status)
  }

  /** Exactly the ad's rows in that status are listed, the last inserted first. */
  lemma {:induction false} ListedNewestFirst(promotions: seq<AdPromotion>, ad: AdId, status: Option<PromotionStatus>)
    ensures ListRows(promotions, ad, status) == Reversed(Filter(promotions, (p: AdPromotion) => Matches(p, ad, status)))
    ensures forall p :: p in ListRows(promotions, ad, status) <==> p in promotions && Matches(p, ad, status)
  {
    if promotions != [] {
      var n := |promotions| - 1;
      ListedNewestFirst(promotions[..n], ad, status);
      assert promotions == promotions[..n] + [promotions[n]];
    }
  }

  /* What a lifecycle handler computes from the rows it listed */

  function RefundDue(now: Time): AdPromotion -> int {
    (p: AdPromotion) => if IsLive(p.status) then RefundAmount(p, now) else 0
  }

  predicate IsTopService(code: string) { code == "TOP" }

  function ResumeTopEvent(rows: seq<AdPromotion>, ad: AdId, title: string, now: Time): Option<Event> {
    if rows == [] then None
    else if !IsTopService(rows[0].serviceCode) || rows[0].endsAt.None? || rows[0].suspendedAt.None? then
      ResumeTopEvent(rows[1..], ad, title, now)
    else
      var newEnds := rows[0].endsAt.value + Sub(now, rows[0].suspendedAt.value);
      Some(PromotionActivated(ad, rows[0].userId, title, rows[0].serviceCode, true, Unix(newEnds), Some(newEnds)))
  }
}
