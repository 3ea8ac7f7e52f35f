/**
 Why one lifecycle handler per ad at a time is needed: two overlapping refunds of one
 ad, with a cheaper purchase between their writes, pay back more than was ever paid.
 */
module OverlappingRefunds {
  import opened Clock
  import opened Collections
  import opened RefundArithmetic
  import opened PaymentsDb
  import opened Ledger
  import opened PaymentsRuns

  const AD: AdId := 7
  const USER: UserId := 1
  const WEEK: int := 7 * DAY

  function Owner(): AdId -> UserId { (ad: AdId) => USER }

  function Row(id: PromotionId, price: int): AdPromotion {
    AdPromotion(id, AD, USER, "TOP", None, Active, price, 0, Some(WEEK), [], None)
  }

  function News(): Event { PromotionActivated(AD, USER, "", "TOP", true, 0, Some(WEEK)) }

  const ACTIONS: seq<Action> := [
    CreatePayment(0, USER, Mock, 1000),
    ConfirmPayment(0, ""),
    Charge(USER, AD, 100, [Row(0, 100)], News()),
    Activate(0),
    ReadForRefund(AD, 0, "ad_blocked"),
    ReadForRefund(AD, 0, "ad_blocked"),
    WriteRefund(0),
    Charge(USER, AD, 10, [Row(1, 10)], News()),
    Activate(1),
    WriteRefund(1)]

  /** 110 paid, 200 returned. */
  lemma OverlappingRefundsOverpay() returns (states: seq<State>)
    ensures Run(Owner(), states, ACTIONS)
    ensures Paid(states[10].db, AD) == 110 && Returned(states[10].db, AD) == 200
  {
    hide Apply;
    hide Enabled;
    var s1, s2 := ToppedUp();
    var s3, s4 := UntilActivated(s2);
    var s5, s6 := UntilBothRead(s4);
    var s7, s8 := UntilOneWrote(s6);
    var s9, s10 := UntilBothWrote(s8);
    states := [INIT, s1, s2, s3, s4, s5, s6, s7, s8, s9, s10];
  }

  lemma ToppedUp() returns (s1: State, s2: State)
    ensures var o := Owner();
            && Enabled(o, INIT, ACTIONS[0]) && s1 == Apply(o, INIT, ACTIONS[0])
            && Enabled(o, s1, ACTIONS[1]) && s2 == Apply(o, s1, ACTIONS[1])
    ensures s2.sagas == [] && s2.handlers == [] && s2.db.promotions == []
    ensures s2.db.wallets == map[USER := Wallet(1000, 1)] && s2.db.nextOperation == 1
    ensures s2.givenAway == [] && Paid(s2.db, AD) == Returned(s2.db, AD) == 0
  {
    var o := Owner();
    s1 := Apply(o, INIT, ACTIONS[0]);
    s2 := Apply(o, s1, ACTIONS[1]);
    SumPair(s1.db.ledger, 0, Topup, Some(ForPayment(0)), USER, Credit, ExternalTopup, 1000, PurchaseOf(AD));
    SumPair(s1.db.ledger, 0, Topup, Some(ForPayment(0)), USER, Credit, ExternalTopup, 1000, RefundOf(AD));
  }

  lemma UntilActivated(s2: State) returns (s3: State, s4: State)
    requires s2.sagas == [] && s2.handlers == [] && s2.db.promotions == []
    requires s2.db.wallets == map[USER := Wallet(1000, 1)] && s2.db.nextOperation == 1
    ensures var o := Owner();
            && Enabled(o, s2, ACTIONS[2]) && s3 == Apply(o, s2, ACTIONS[2])
            && Enabled(o, s3, ACTIONS[3]) && s4 == Apply(o, s3, ACTIONS[3])
    ensures s4.sagas == [Over] && s4.handlers == [] && s4.db.promotions == [Row(0, 100)] && s4.db.nextOperation == 2
    ensures s4.db.wallets == map[USER := Wallet(900, 2)]
    ensures Paid(s4.db, AD) == Paid(s2.db, AD) + 100 && Returned(s4.db, AD) == Returned(s2.db, AD)
  {
    var o := Owner();
    s3 := Apply(o, s2, ACTIONS[2]);
    AdPair(s2.db, s3.db, Purchase, AD, USER, Debit, PromotionRevenue, 100, AD);
    s4 := Apply(o, s3, ACTIONS[3]);
  }

  lemma UntilBothRead(s4: State) returns (s5: State, s6: State)
    requires s4.handlers == [] && s4.db.promotions == [Row(0, 100)]
    ensures var o := Owner();
            && Enabled(o, s4, ACTIONS[4]) && s5 == Apply(o, s4, ACTIONS[4])
            && Enabled(o, s5, ACTIONS[5]) && s6 == Apply(o, s5, ACTIONS[5])
    ensures s6.db == s4.db && s6.sagas == s4.sagas
    ensures s6.handlers == [Refunding(AD, USER, 100, "ad_blocked"), Refunding(AD, USER, 100, "ad_blocked")]
  {
    hide ListRows;
    hide LastLiveUser;
    hide Sum;
    ListingOne(Row(0, 100));
    var o := Owner();
    s5 := Apply(o, s4, ACTIONS[4]);
    s6 := Apply(o, s5, ACTIONS[5]);
  }

  lemma UntilOneWrote(s6: State) returns (s7: State, s8: State)
    requires s6.sagas == [Over] && s6.db.promotions == [Row(0, 100)] && s6.db.nextOperation == 2
    requires s6.handlers == [Refunding(AD, USER, 100, "ad_blocked"), Refunding(AD, USER, 100, "ad_blocked")]
    requires s6.db.wallets == map[USER := Wallet(900, 2)]
    ensures var o := Owner();
            && Enabled(o, s6, ACTIONS[6]) && s7 == Apply(o, s6, ACTIONS[6])
            && Enabled(o, s7, ACTIONS[7]) && s8 == Apply(o, s7, ACTIONS[7])
    ensures s8.sagas == [Over, Charged(USER, AD, 10, [Row(1, 10)], News())] && s8.db.nextOperation == 4
    ensures s8.handlers == [Finished, Refunding(AD, USER, 100, "ad_blocked")] && |s8.db.promotions| == 1
    ensures Paid(s8.db, AD) == Paid(s6.db, AD) + 10 && Returned(s8.db, AD) == Returned(s6.db, AD) + 100
  {
    var o := Owner();
    assert s6.db.promotions[0] == Row(0, 100);
    s7 := Apply(o, s6, ACTIONS[6]);
    assert s7.db.wallets == map[USER := Wallet(1000, 3)];
    AdPair(s6.db, s7.db, Refund, AD, USER, Credit, ExternalTopup, 100, AD);
    s8 := Apply(o, s7, ACTIONS[7]);
    AdPair(s7.db, s8.db, Purchase, AD, USER, Debit, PromotionRevenue, 10, AD);
  }

  lemma UntilBothWrote(s8: State) returns (s9: State, s10: State)
    requires s8.sagas == [Over, Charged(USER, AD, 10, [Row(1, 10)], News())] && s8.db.nextOperation == 4
    requires s8.handlers == [Finished, Refunding(AD, USER, 100, "ad_blocked")] && |s8.db.promotions| == 1
    ensures var o := Owner();
            && Enabled(o, s8, ACTIONS[8]) && s9 == Apply(o, s8, ACTIONS[8])
            && Enabled(o, s9, ACTIONS[9]) && s10 == Apply(o, s9, ACTIONS[9])
    ensures Paid(s10.db, AD) == Paid(s8.db, AD) && Returned(s10.db, AD) == Returned(s8.db, AD) + 100
  {
    var o := Owner();
    s9 := Apply(o, s8, ACTIONS[8]);
    assert s9.db.promotions[1] == Row(1, 10);
    s10 := Apply(o, s9, ACTIONS[9]);
    AdPair(s9.db, s10.db, Refund, AD, USER, Credit, ExternalTopup, 100, AD);
  }

  lemma ListingOne(p: AdPromotion)
    requires p == Row(0, 100)
    ensures ListRows([p], AD, None) == [p]
    ensures LastLiveUser([p]) == Some(USER)
    ensures Sum([p], RefundDue(0)) == 100
  {
    assert [p][..0] == [];
    assert RefundAmount(p, 0) == 100;
    SumSingleton(p, RefundDue(0));
  }
}
