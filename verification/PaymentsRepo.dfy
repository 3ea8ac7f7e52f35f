/**
 The payments repository as it updates its tables in place. Every method is one
 transaction and is proved to do exactly what its specification in PaymentsDb says;
 a method that returns an error has changed nothing.
 */
module PaymentsRepo {
  import opened Clock
  import opened Collections
  import opened RefundArithmetic
  import opened PaymentsDb

  datatype Entry = Entry(account: Account, walletUser: Option<UserId>, direction: Direction, amount: int)

  function PostingFor(operation: nat, kind: Kind, reference: Option<Ref>, e: Entry): Posting {
    Posting(operation, kind, e.account, e.walletUser, e.direction, e.amount, reference)
  }

  class Repo {
    var wallets: map<UserId, Wallet>
    var ledger: seq<Posting>
    var nextOperation: nat
    var payments: map<PaymentId, Payment>
    var promotions: seq<AdPromotion>
    var outbox: seq<Event>

    ghost function Tables(): Db
      reads this
    {
      Db(wallets, ledger, nextOperation, payments, promotions, outbox)
    }

    /** The unique index over providers and their external ids. */
    predicate Taken(id: PaymentId, externalId: Option<string>)
      reads this`payments
      requires id in payments
    {
      externalId.Some? &&
      exists other | other in payments ::
        other != id && payments[other].provider == payments[id].provider && payments[other].externalId == externalId
    }

    constructor ()
      ensures Tables() == EMPTY
    {
      wallets, ledger, nextOperation, payments, promotions, outbox := map[], [], 0, map[], [], [];
    }

    method InsertPostings(kind: Kind, reference: Option<Ref>, entries: seq<Entry>)
      modifies this`ledger, this`nextOperation
      ensures nextOperation == old(nextOperation) + 1
      ensures ledger == old(ledger) + Map(entries, e => PostingFor(old(nextOperation), kind, reference, e))
    {
      var operation := nextOperation;
      for i := 0 to |entries|
        invariant nextOperation == operation
        invariant |ledger| == |old(ledger)| + i && old(ledger) <= ledger
        invariant forall j :: 0 <= j < i ==> ledger[|old(ledger)| + j] == PostingFor(operation, kind, reference, entries[j])
      {
        var e := entries[i];
        ledger := ledger + [Posting(operation, kind, e.account, e.walletUser, e.direction, e.amount, reference)];
      }
      nextOperation := operation + 1;
    }

    /** Credits inside the caller's transaction. */
    method Credit(user: UserId, amount: int, kind: Kind, reference: Option<Ref>) returns (w: Wallet)
      modifies this`wallets, this`ledger, this`nextOperation
      ensures Tables() == CreditTx(old(Tables()), user, amount, kind, reference)
      ensures user in wallets && w == wallets[user]
    {
      if user in wallets {
        w := Wallet(wallets[user].balance + amount, wallets[user].version + 1);
      } else {
        w := Wallet(amount, 1);
      }
      wallets := wallets[user := w];
      InsertPostings(kind, reference, [
        Entry(UserWallet, Some(user), PaymentsDb.Credit, amount),
        Entry(ExternalTopup, None, PaymentsDb.Debit, amount)]);
      assert ledger == old(ledger) + Pair(old(nextOperation), kind, reference, user, PaymentsDb.Credit, ExternalTopup, amount);
    }

    method Debit(user: UserId, amount: int, kind: Kind, reference: Option<Ref>) returns (r: Result<Wallet, Error>)
      modifies this`wallets, this`ledger, this`nextOperation
      ensures match DebitTx(old(Tables()), user, amount, kind, reference)
              case Err(e) => r == Err(e) && Tables() == old(Tables())
              case Ok(db) => r == Ok(db.wallets[user]) && Tables() == db
    {
      if amount <= 0 {
        return Err(InvalidAmount);
      }
      if user !in wallets {
        return Err(InsufficientFunds);
      }
      if wallets[user].balance < amount {
        return Err(InsufficientFunds);
      }
      var w := Wallet(wallets[user].balance - amount, wallets[user].version + 1);
      wallets := wallets[user := w];
      InsertPostings(kind, reference, [
        Entry(UserWallet, Some(user), PaymentsDb.Debit, amount),
        Entry(PromotionRevenue, None, PaymentsDb.Credit, amount)]);
      assert ledger == old(ledger) + Pair(old(nextOperation), kind, reference, user, PaymentsDb.Debit, PromotionRevenue, amount);
      r := Ok(w);
    }

    method Refund(user: UserId, amount: int, reference: Option<Ref>, reason: string) returns (r: Result<Wallet, Error>)
      modifies this`wallets, this`ledger, this`nextOperation, this`outbox
      ensures match RefundTx(old(Tables()), user, amount, reference, reason)
              case Err(e) => r == Err(e) && Tables() == old(Tables())
              case Ok(db) => r == Ok(db.wallets[user]) && Tables() == db
    {
      if amount <= 0 {
        return Err(InvalidAmount);
      }
      var w := Credit(user, amount, PaymentsDb.Refund, reference);
      outbox := outbox + [WalletRefunded(user, amount, reason)];
      r := Ok(w);
    }

    method CreatePayment(id: PaymentId, user: UserId, provider: Provider, amount: int) returns (r: Result<(), Error>)
      modifies this`payments
      ensures match CreatePaymentTx(old(Tables()), id, user, provider, amount)
              case Err(e) => r == Err(e) && Tables() == old(Tables())
              case Ok(db) => r.Ok? && Tables() == db
    {
      if amount <= 0 {
        return Err(InvalidAmount);
      }
      if id in payments {
        return Err(UniqueViolation);
      }
      payments := payments[id := Payment(user, provider, amount, Pending, None)];
      r := Ok(());
    }

    method SetExternalId(id: PaymentId, externalId: string) returns (r: Result<(), Error>)
      modifies this`payments
      ensures match SetExternalIdTx(old(Tables()), id, externalId)
              case Err(e) => r == Err(e) && Tables() == old(Tables())
              case Ok(db) => r.Ok? && Tables() == db
    {
      if id in payments && payments[id].status.Pending?
         && (payments[id].externalId.None? || payments[id].externalId == Some(externalId)) {
        if Taken(id, Some(externalId)) {
          return Err(UniqueViolation);
        }
        payments := payments[id := payments[id].(externalId := Some(externalId))];
      }
      r := Ok(());
    }

    /** Confirms a payment; `credited` tells whether this very call did. */
    method ConfirmPayment(id: PaymentId, externalId: string) returns (r: Result<Payment, Error>, credited: bool)
      modifies this`payments, this`wallets, this`ledger, this`nextOperation, this`outbox
      ensures match ConfirmPaymentTx(old(Tables()), id, externalId)
              case Err(e) => r == Err(e) && !credited && Tables() == old(Tables())
              case Ok(db) => r == Ok(db.payments[id]) && Tables() == db && credited == (old(payments)[id].status == Pending)
    {
      credited := false;
      if id !in payments {
        return Err(PaymentNotFound), false;
      }
      if !payments[id].status.Pending? {
        return Ok(payments[id]), false;
      }
      var p := payments[id].(status := Succeeded);
      if externalId != "" {
        p := p.(externalId := Some(externalId));
      }
      if Taken(id, p.externalId) {
        return Err(UniqueViolation), false;
      }
      payments := payments[id := p];
      credited := true;
      var _ := Credit(p.userId, p.amount, Topup, Some(ForPayment(id)));
      outbox := outbox + [PaymentSucceeded(id, p.userId, p.provider, p.amount)];
      r := Ok(p);
    }

    method FailPayment(id: PaymentId, status: PaymentStatus) returns (r: Result<Payment, Error>, changed: bool)
      modifies this`payments, this`outbox
      ensures match FailPaymentTx(old(Tables()), id, status)
              case Err(e) => r == Err(e) && !changed && Tables() == old(Tables())
              case Ok(db) => r == Ok(db.payments[id]) && Tables() == db && changed == (old(payments)[id].status == Pending)
    {
      changed := false;
      if !status.Failed? && !status.Canceled? {
        return Err(PaymentState), false;
      }
      if id !in payments {
        return Err(PaymentNotFound), false;
      }
      if !payments[id].status.Pending? {
        return Ok(payments[id]), false;
      }
      var p := payments[id].(status := status);
      payments := payments[id := p];
      changed := true;
      outbox := outbox + [PaymentFailed(id, p.userId, p.provider, p.amount)];
      r := Ok(p);
    }

    method ActivatePromotions(rows: seq<AdPromotion>, ev: Event)
      modifies this`promotions, this`outbox
      ensures Tables() == ActivateTx(old(Tables()), rows, ev)
    {
      for i := 0 to |rows|
        invariant promotions == old(promotions) + rows[..i]
        invariant outbox == old(outbox)
      {
        promotions := promotions + [rows[i]];
        assert rows[..i + 1] == rows[..i] + [rows[i]];
      }
      assert rows[..|rows|] == rows;
      outbox := outbox + [ev];
    }

    /** Returns how many rows it froze. */
    method SuspendPromotions(ad: AdId, now: Time) returns (n: nat)
      modifies this`promotions
      ensures Tables() == SuspendTx(old(Tables()), ad, now)
      ensures n == |Filter(old(promotions), (p: AdPromotion) => p.adId == ad && p.status.Active?)|
    {
      n := |Filter(promotions, (p: AdPromotion) => p.adId == ad && p.status.Active?)|;
      promotions := Map(promotions, p => SuspendRow(p, ad, now));
    }

    method ResumePromotions(ad: AdId, now: Time, ev: Option<Event>) returns (resumed: bool)
      modifies this`promotions, this`outbox
      ensures Tables() == ResumeTx(old(Tables()), ad, now, ev)
      ensures resumed == HasSuspended(old(promotions), ad)
    {
      resumed := HasSuspended(promotions, ad);
      if !resumed {
        return;
      }
      promotions := Map(promotions, p => ResumeRow(p, ad, now));
      if ev.Some? {
        outbox := outbox + [ev.value];
      }
    }

    method RefundPromotions(ad: AdId, user: UserId, amount: int, reason: string) returns (done: bool)
      modifies this`promotions, this`wallets, this`ledger, this`nextOperation, this`outbox
      ensures Tables() == RefundPromotionsTx(old(Tables()), ad, user, amount, reason)
      ensures done == HasLive(old(promotions), ad)
    {
      done := HasLive(promotions, ad);
      if !done {
        return;
      }
      promotions := Map(promotions, p => RefundRow(p, ad));
      if amount <= 0 {
        return;
      }
      var _ := Credit(user, amount, PaymentsDb.Refund, Some(ForAd(ad)));
      outbox := outbox + [WalletRefunded(user, amount, reason)];
    }

    method ListAdPromotions(ad: AdId, status: Option<PromotionStatus>) returns (rows: seq<AdPromotion>)
      ensures rows == ListRows(promotions, ad, status)
    {
      rows := ListRows(promotions, ad, status);
    }
  }
}
