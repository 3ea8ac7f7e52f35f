/**
 Why the purchase saga must hear of every activation that was committed: one that is taken for
 failed is paid back at once, and its service is refunded once more when the ad is blocked.
 */
module LostActivation {
  import opened Clock
  import opened Collections
  import opened RefundArithmetic
  import opened PaymentsDb
  import opened Ledger
  import opened PaymentsRuns
  import opened OverlappingRefunds

  const LOST: seq<Action> := [
    CreatePayment(0, USER, Mock, 1000),
    ConfirmPayment(0, ""),
    Charge(USER, AD, 100, [Row(0, 100)], News()),
    ActivateUnheard(0),
    Compensate(0),
    ReadForRefund(AD, 0, "ad_blocked"),
    WriteRefund(0)]

  /** 100 paid, 200 returned: the surplus is what was given away. */
  lemma LostActivationOverpays() returns (states: seq<State>)
    ensures SerialRun(Owner(), states, LOST)
    ensures Paid(states[7].db, AD) == 100 && Returned(states[7].db, AD) == 200 && GivenAway(states[7], AD) == 100
  {
    hide Apply;
    hide Enabled;
    var s1, s2 := ToppedUp();
    var s3, s4 := UntilUnheard(s2);
    var s5 := UntilPaidBack(s4);
    var s6, s7 := UntilRefunded(s5);
    states := [INIT, s1, s2, s3, s4, s5, s6, s7];
  }

  lemma UntilUnheard(s2: State) returns (s3: State, s4: State)
    requires s2.sagas == [] && s2.handlers == [] && s2.db.promotions == [] && s2.givenAway == []
    requires s2.db.wallets == map[USER := Wallet(1000, 1)] && s2.db.nextOperation == 1
    ensures var o := Owner();
            && Enabled(o, s2, LOST[2]) && s3 == Apply(o, s2, LOST[2])
            && Enabled(o, s3, LOST[3]) && s4 == Apply(o, s3, LOST[3])
    ensures s4.sagas == [Failing(USER, AD, 100, true)] && s4.handlers == [] && s4.givenAway == []
    ensures s4.db.promotions == [Row(0, 100)]
    ensures Paid(s4.db, AD) == Paid(s2.db, AD) + 100 && Returned(s4.db, AD) == Returned(s2.db, AD)
  {
    var o := Owner();
    s3 := Apply(o, s2, LOST[2]);
    AdPair(s2.db, s3.db, Purchase, AD, USER, Debit, PromotionRevenue, 100, AD);
    s4 := Apply(o, s3, LOST[3]);
  }

  lemma UntilPaidBack(s4: State) returns (s5: State)
    requires s4.sagas == [Failing(USER, AD, 100, true)] && s4.handlers == [] && s4.givenAway == []
    ensures var o := Owner(); Enabled(o, s4, LOST[4]) && s5 == Apply(o, s4, LOST[4])
    ensures s5.handlers == [] && s5.db.promotions == s4.db.promotions && GivenAway(s5, AD) == 100
    ensures Paid(s5.db, AD) == Paid(s4.db, AD) && Returned(s5.db, AD) == Returned(s4.db, AD) + 100
  {
    s5 := Apply(Owner(), s4, LOST[4]);
    AdPair(s4.db, s5.db, Refund, AD, USER, Credit, ExternalTopup, 100, AD);
    SumSingleton(Failing(USER, AD, 100, true), GiftOf(AD));
    assert s5.givenAway == [Failing(USER, AD, 100, true)];
  }

  lemma UntilRefunded(s5: State) returns (s6: State, s7: State)
    requires s5.handlers == [] && s5.db.promotions == [Row(0, 100)]
    ensures var o := Owner();
            && Enabled(o, s5, LOST[5]) && s6 == Apply(o, s5, LOST[5])
            && Enabled(o, s6, LOST[6]) && s7 == Apply(o, s6, LOST[6])
    ensures s7.givenAway == s5.givenAway
    ensures Paid(s7.db, AD) == Paid(s5.db, AD) && Returned(s7.db, AD) == Returned(s5.db, AD) + 100
  {
    hide ListRows;
    hide LastLiveUser;
    hide Sum;
    ListingOne(Row(0, 100));
    var o := Owner();
    s6 := Apply(o, s5, LOST[5]);
    assert s6.db.promotions[0] == Row(0, 100);
    s7 := Apply(o, s6, LOST[6]);
    AdPair(s6.db, s7.db, Refund, AD, USER, Credit, ExternalTopup, 100, AD);
  }
}
