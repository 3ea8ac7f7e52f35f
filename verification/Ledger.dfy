/**
 The wallet and its double-entry ledger: every balance is the sum of its owner's
 postings, every operation balances, and every provider payment is credited exactly
 once. Proved for each transaction, so for every run of them.
 */
module Ledger {
  import opened Collections
  import opened RefundArithmetic
  import opened PaymentsDb

  function Signed(p: Posting): int {
    if p.direction == Debit then -p.amount else p.amount
  }

  function OfUser(user: UserId): Posting -> int {
    (p: Posting) => if p.walletUser == Some(user) then Signed(p) else 0
  }

  function OfOperation(operation: nat): Posting -> int {
    (p: Posting) => if p.operation == operation then Signed(p) else 0
  }

  function OfAccount(account: Account): Posting -> int {
    (p: Posting) => if p.account == account then Signed(p) else 0
  }

  /** Money that moved between a user's wallet and the system under one kind of operation. */
  function UserSide(kind: Kind): Posting -> int {
    (p: Posting) => if p.account == UserWallet && p.kind == kind then p.amount else 0
  }

  /** The operations that touched a wallet. */
  function OperationsOf(ledger: seq<Posting>, user: UserId): set<nat> {
    set i | 0 <= i < |ledger| && ledger[i].walletUser == Some(user) :: ledger[i].operation
  }

  ghost predicate LedgerInv(db: Db) {
    && (forall user :: BalanceOf(db, user) == Sum(db.ledger, OfUser(user)) && 0 <= BalanceOf(db, user))
    && (forall user :: VersionOf(db, user) == |OperationsOf(db.ledger, user)|)
    && (forall operation :: Sum(db.ledger, OfOperation(operation)) == 0)
    && (forall i :: 0 <= i < |db.ledger| ==> db.ledger[i].operation < db.nextOperation && 0 < db.ledger[i].amount)
  }

  /** What each system account holds: no refund ever draws on the refund source. */
  ghost predicate AccountsInv(db: Db) {
    && Sum(db.ledger, OfAccount(PromotionRevenue)) == Sum(db.ledger, UserSide(Purchase))
    && Sum(db.ledger, OfAccount(ExternalTopup)) == -Sum(db.ledger, UserSide(Topup)) - Sum(db.ledger, UserSide(Refund))
    && Sum(db.ledger, OfAccount(RefundSource)) == 0
    && Sum(db.ledger, OfAccount(UserWallet)) ==
         Sum(db.ledger, UserSide(Topup)) + Sum(db.ledger, UserSide(Refund)) - Sum(db.ledger, UserSide(Purchase))
  }

  lemma SumPair(ledger: seq<Posting>, operation: nat, kind: Kind, reference: Option<Ref>, user: UserId,
                direction: Direction, counter: Account, amount: int, f: Posting -> int)
    ensures var pair := Pair(operation, kind, reference, user, direction, counter, amount);
            Sum(ledger + pair, f) == Sum(ledger, f) + f(pair[0]) + f(pair[1])
  {
    var pair := Pair(operation, kind, reference, user, direction, counter, amount);
    assert ledger + pair == (ledger + [pair[0]]) + [pair[1]];
    SumSnoc(ledger + [pair[0]], pair[1], f);
    SumSnoc(ledger, pair[0], f);
  }

  lemma OperationsAfterPair(ledger: seq<Posting>, operation: nat, kind: Kind, reference: Option<Ref>,
                            user: UserId, direction: Direction, counter: Account, amount: int, other: UserId)
    requires forall i :: 0 <= i < |ledger| ==> ledger[i].operation < operation
    ensures var after := ledger + Pair(operation, kind, reference, user, direction, counter, amount);
            |OperationsOf(after, other)| == |OperationsOf(ledger, other)| + if other == user then 1 else 0
  {
    var after := ledger + Pair(operation, kind, reference, user, direction, counter, amount);
    var n := |ledger|;
    assert after[n].operation == operation && after[n].walletUser == Some(user) && after[n + 1].walletUser == None;
    if other == user {
      assert operation !in OperationsOf(ledger, user);
      assert OperationsOf(after, user) == OperationsOf(ledger, user) + {operation} by {
        forall o | o in OperationsOf(ledger, user) + {operation} ensures o in OperationsOf(after, user) {
          if o != operation {
            var i :| 0 <= i < n && ledger[i].walletUser == Some(user) && ledger[i].operation == o;
            assert after[i] == ledger[i];
          }
        }
      }
    } else {
      assert OperationsOf(after, other) == OperationsOf(ledger, other) by {
        forall o | o in OperationsOf(ledger, other) ensures o in OperationsOf(after, other) {
          var i :| 0 <= i < n && ledger[i].walletUser == Some(other) && ledger[i].operation == o;
          assert after[i] == ledger[i];
        }
      }
    }
  }

  /** One operation on one wallet keeps the ledger, whichever way the money moves. */
  lemma PairKeepsLedger(db: Db, db': Db, kind: Kind, reference: Option<Ref>, user: UserId,
                        direction: Direction, counter: Account, amount: int)
    requires LedgerInv(db) && amount > 0 && counter != UserWallet
    requires direction == Debit ==> amount <= BalanceOf(db, user)
    requires db'.ledger == db.ledger + Pair(db.nextOperation, kind, reference, user, direction, counter, amount)
    requires db'.nextOperation == db.nextOperation + 1
    requires db'.wallets == db.wallets[user := Wallet(
               BalanceOf(db, user) + (if direction == Credit then amount else -amount), VersionOf(db, user) + 1)]
    ensures LedgerInv(db')
  {
    forall other
      ensures BalanceOf(db', other) == Sum(db'.ledger, OfUser(other)) && 0 <= BalanceOf(db', other)
      ensures VersionOf(db', other) == |OperationsOf(db'.ledger, other)|
    {
      SumPair(db.ledger, db.nextOperation, kind, reference, user, direction, counter, amount, OfUser(other));
      OperationsAfterPair(db.ledger, db.nextOperation, kind, reference, user, direction, counter, amount, other);
    }
    forall operation ensures Sum(db'.ledger, OfOperation(operation)) == 0 {
      SumPair(db.ledger, db.nextOperation, kind, reference, user, direction, counter, amount, OfOperation(operation));
    }
  }

  lemma PairKeepsAccounts(db: Db, db': Db, kind: Kind, reference: Option<Ref>, user: UserId,
                          direction: Direction, amount: int)
    requires AccountsInv(db)
    requires kind == Purchase <==> direction == Debit
    requires var counter := if direction == Debit then PromotionRevenue else ExternalTopup;
             db'.ledger == db.ledger + Pair(db.nextOperation, kind, reference, user, direction, counter, amount)
    ensures AccountsInv(db')
  {
    var counter := if direction == Debit then PromotionRevenue else ExternalTopup;
    forall f: Posting -> int
      ensures var pair := Pair(db.nextOperation, kind, reference, user, direction, counter, amount);
              Sum(db'.ledger, f) == Sum(db.ledger, f) + f(pair[0]) + f(pair[1])
    {
      SumPair(db.ledger, db.nextOperation, kind, reference, user, direction, counter, amount, f);
    }
  }

  /* Each transaction keeps the books. */

  ghost predicate Books(db: Db) {
    LedgerInv(db) && AccountsInv(db)
  }

  lemma CreditKeepsBooks(db: Db, user: UserId, amount: int, kind: Kind, reference: Option<Ref>)
    requires Books(db) && amount > 0 && kind != Purchase
    ensures Books(CreditTx(db, user, amount, kind, reference))
    ensures BalanceOf(CreditTx(db, user, amount, kind, reference), user) == BalanceOf(db, user) + amount
  {
    var db' := CreditTx(db, user, amount, kind, reference);
    PairKeepsLedger(db, db', kind, reference, user, Credit, ExternalTopup, amount);
    PairKeepsAccounts(db, db', kind, reference, user, Credit, amount);
  }

  /** A debit succeeds exactly when the amount is positive and covered, and then takes exactly it. */
  lemma DebitKeepsBooks(db: Db, user: UserId, amount: int, reference: Option<Ref>)
    requires Books(db)
    ensures DebitTx(db, user, amount, Purchase, reference).Ok? <==> 0 < amount <= BalanceOf(db, user)
    ensures var r := DebitTx(db, user, amount, Purchase, reference);
            r.Ok? ==> Books(r.value) && BalanceOf(r.value, user) == BalanceOf(db, user) - amount
  {
    var r := DebitTx(db, user, amount, Purchase, reference);
    if r.Ok? {
      PairKeepsLedger(db, r.value, Purchase, reference, user, Debit, PromotionRevenue, amount);
      PairKeepsAccounts(db, r.value, Purchase, reference, user, Debit, amount);
    }
  }

  lemma BooksIgnoreOtherTables(db: Db, db': Db)
    requires Books(db)
    requires db'.wallets == db.wallets && db'.ledger == db.ledger && db'.nextOperation == db.nextOperation
    ensures Books(db')
  {
  }
}
