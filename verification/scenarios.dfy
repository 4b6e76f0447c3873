/**
  The repository's end-to-end expectations, stated over the model on the
  seeded catalogs. Amounts are in cents, rates and percentages scaled by
  10^4, dates are day numbers counted from 1970-01-01.
*/
module Scenarios {
  import opened Results
  import opened Money
  import opened Sums
  import opened Ledger
  import opened Posting
  import opened Reports
  import opened ChequeBook
  import opened FxScript

  /** A freshly initialised database. */
  const Fresh: Store := Store(Seeded, [], [], [], map[], 1)

  /** A two-line journal has the position of its lines. */
  lemma PositionOfTwo(a: Line, b: Line, account: Code, currency: Code)
    ensures Position([a, b], account, currency)
            == PositionWeight(account, currency)(a) + PositionWeight(account, currency)(b)
  {
    TotalSnoc([], a, PositionWeight(account, currency));
    TotalSnoc([a], b, PositionWeight(account, currency));
    assert [] + [a] == [a];
    assert [a] + [b] == [a, b];
  }

  /** Buying 100 USD at 1400 leaves a USD position of 100 and an ARS balance of -140000. */
  lemma FxBuyScenario()
    ensures var s := Fresh.(parties := [Party("Test Client", ClientKind)]);
            var req := FxRequest(20425, "Test Client", "buy", 10000, 1400 * RateScale, Some("Test FX buy"));
            var r := CreateFx(s, req, 1);
            && r.result == Ok(0)
            && Position(r.store.journal, CashUsd, Usd) == 10000
            && Position(r.store.journal, CashArs, Ars) == -14000000
  {
    var s := Fresh.(parties := [Party("Test Client", ClientKind)]);
    var req := FxRequest(20425, "Test Client", "buy", 10000, 1400 * RateScale, Some("Test FX buy"));
    assert FindParty(s.parties, "Test Client") == Some(0);
    Round2Exact(14000000, RateScale);
    assert ArsEquivalent(10000, 1400 * RateScale) == 14000000;
    var r := CreateFx(s, req, 1);
    var legs := FxLegs(0, true, 10000, 14000000);
    assert r.store.journal == legs;
    PositionOfTwo(legs[0], legs[1], CashUsd, Usd);
    PositionOfTwo(legs[0], legs[1], CashArs, Ars);
  }

  const TwoParties := [Party("Proveedor X", SupplierKind), Party("Cliente Y", ClientKind)]
  const PaySupplier := ChargeRequest(20427, "Proveedor X", Ars, 100000, Some(0), Some(10 * RateScale), Some(5000),
                                     Some("transferencia"), None)
  const ReceiveFromClient := ChargeRequest(20428, "Cliente Y", Ars, 200000, Some(0), Some(5 * RateScale), Some(0),
                                           Some("efectivo"), None)
  const PaidLines := [Debit(0, SuppliersArs, Ars, 100000), Debit(0, CommissionExpense, Ars, 10000),
                      Debit(0, CommissionExpense, Ars, 5000), Credit(0, CashArs, Ars, 115000)]
  const ReceivedLines := [Credit(1, ClientsArs, Ars, 200000), Debit(1, CashArs, Ars, 190000),
                          Credit(1, CommissionIncome, Ars, 10000)]

  /** The payment half: 10% of 1000 plus 50 expenses costs 1150 out of ARS cash. */
  lemma PaymentStep()
    ensures var r := CreatePayment(Fresh.(parties := TwoParties), PaySupplier, 1);
            && r.result == Ok((0, 115000))
            && r.store.journal == PaidLines
            && r.store.catalog == Seeded
            && r.store.parties == TwoParties
            && |r.store.operations| == 1
  {
    CommissionWholePercent(PaySupplier, 10);
    assert FindParty(TwoParties, "Proveedor X") == Some(0);
    assert PaymentLines(0, PaySupplier, SupplierKind) == PaidLines;
  }

  /** The receipt half: 5% of 2000 leaves 1900 received into ARS cash. */
  lemma ReceiptStep(s: Store)
    requires s.catalog == Seeded && s.parties == TwoParties && |s.operations| == 1
    ensures var r := CreateReceipt(s, ReceiveFromClient, 1);
            && r.result == Ok((1, 190000))
            && r.store.journal == s.journal + ReceivedLines
  {
    CommissionWholePercent(ReceiveFromClient, 5);
    assert FindParty(TwoParties, "Cliente Y") == Some(1);
    assert ReceiptLines(1, ReceiveFromClient, ClientKind) == ReceivedLines;
  }

  /**
    A supplier payment of 1000 at 10% with 50 expenses costs 1150, a client
    receipt of 2000 at 5% nets 1900, and ARS cash ends at +750.
  */
  lemma PaymentReceiptScenario()
    ensures var r1 := CreatePayment(Fresh.(parties := TwoParties), PaySupplier, 1);
            var r2 := CreateReceipt(r1.store, ReceiveFromClient, 1);
            && r1.result == Ok((0, 115000))
            && r2.result == Ok((1, 190000))
            && Position(r2.store.journal, CashArs, Ars) == 75000
  {
    var r1 := CreatePayment(Fresh.(parties := TwoParties), PaySupplier, 1);
    PaymentStep();
    ReceiptStep(r1.store);
    CashAfterBoth();
  }

  /** ARS cash after both postings: -1150 + 1900. */
  lemma CashAfterBoth()
    ensures Position(PaidLines + ReceivedLines, CashArs, Ars) == 75000
  {
    var l1, l2 := PaidLines, ReceivedLines;
    PositionAppend(l1[..3], [l1[3]], CashArs, Ars);
    assert l1 == l1[..3] + [l1[3]];
    PositionNoLines(l1[..3], CashArs, Ars);
    PositionOfTwo(l2[0], l2[1], CashArs, Ars);
    PositionAppend([l2[0], l2[1]], [l2[2]], CashArs, Ars);
    assert l2 == [l2[0], l2[1]] + [l2[2]];
    PositionNoLines([l2[2]], CashArs, Ars);
    PositionAppend(l1, l2, CashArs, Ars);
    TotalSnoc([], l1[3], PositionWeight(CashArs, Ars));
    assert [] + [l1[3]] == [l1[3]];
  }

  const ChequeClient := Fresh.(parties := [Party("Cliente Cheque", ClientKind)])

  const BuyCheque := ChequeRequest(20429, "Cliente Cheque", Ars, "Banco X", "123456", 1000000, 20459,
                                   None, None, 1000, 365, Some(20000), Some(5000), None)

  /**
    Buying a 10000 ARS cheque at 10% for 30 days on a 365-day base with 200
    commission and 50 expenses: interest 82.19, net 9667.81, and the one
    cheque filed is pending.
  */
  lemma ChequeBuyScenario()
    ensures var r := CreateChequeBuy(ChequeClient, BuyCheque, 1);
            && r.result == Ok(ChequeFigures(0, 8219, 20000, 5000, 966781))
            && ListCheques(r.store, Some("pending")).Keys == {1}
            && ListCheques(r.store, None).Keys == {1}
  {
    ChequeStep();
    var cs := CreateChequeBuy(ChequeClient, BuyCheque, 1).store.cheques;
    assert StatusName(cs[1].status) == "pending";
  }

  /** The purchase itself: the figures answered and the one pending cheque filed. */
  lemma ChequeStep()
    ensures var r := CreateChequeBuy(ChequeClient, BuyCheque, 1);
            && r.result == Ok(ChequeFigures(0, 8219, 20000, 5000, 966781))
            && r.store.cheques.Keys == {1}
            && r.store.cheques[1].status == Pending
  {
    ChequeInterestScenario();
    assert FindParty(ChequeClient.parties, "Cliente Cheque") == Some(0);
  }

  /** 10000 at 10% for 30 days on a 365-day base is 82.19 of interest. */
  lemma ChequeInterestScenario()
    ensures ChequeInterest(BuyCheque) == Ok(8219)
  {
    assert TermDays(BuyCheque) == 30;
  }

  /** A status update on a cheque that does not exist is refused and changes nothing. */
  lemma UnknownChequeScenario(s: Store)
    requires 999 !in s.cheques
    ensures UpdateChequeStatus(s, 999, "accredited") == Reply(s, Err(ChequeNotFound))
  {
  }

  /** The script's sample operations (USD amounts in cents, rates as in the script). */
  const SampleLoads: seq<FxLoad> := [
    FxLoad(20423, "magda", "buy", 192300, 1430 * RateScale),
    FxLoad(20423, "magda", "buy", 117700, 1430 * RateScale),
    FxLoad(20423, "Plaza", "sell", 200000, 1435 * RateScale),
    FxLoad(20423, "MP RL", "sell", 107800, 1459 * RateScale),
    FxLoad(20423, "pili", "sell", 30000, 1440 * RateScale),
    FxLoad(20423, "Plaza", "buy", 40000, 1435 * RateScale),
    FxLoad(20424, "Plaza", "buy", 110000, 1425 * RateScale),
    FxLoad(20424, "Rami Cocos", "sell", 157000, 1459 * RateScale),
    FxLoad(20424, "Clavo MP", "sell", 300000, 1453 * RateScale),
    FxLoad(20424, "Plaza", "buy", 300000, 1425 * RateScale)]

  /** The script's run: insert the sample operations, then report the USD position. */
  function SampleRun(s: Store): Result<(int, Stance), Error> {
    var t :- InsertAll(s, SampleLoads);
    var position :- ComputeUsdPosition(t);
    Ok((position, Classify(position)))
  }

  /** The signed USD amounts of the sample add up to -348 USD. */
  lemma SampleSignedTotal()
    ensures Total(SampleLoads, SignedUsd) == -34800
  {
    var w := SignedUsd;
    assert SampleLoads[..0] == [];
    TotalPrefixStep(SampleLoads, 0, w);
    assert Total(SampleLoads[..1], w) == 192300;
    TotalPrefixStep(SampleLoads, 1, w);
    assert Total(SampleLoads[..2], w) == 310000;
    TotalPrefixStep(SampleLoads, 2, w);
    assert Total(SampleLoads[..3], w) == 110000;
    TotalPrefixStep(SampleLoads, 3, w);
    assert Total(SampleLoads[..4], w) == 2200;
    TotalPrefixStep(SampleLoads, 4, w);
    assert Total(SampleLoads[..5], w) == -27800;
    TotalPrefixStep(SampleLoads, 5, w);
    assert Total(SampleLoads[..6], w) == 12200;
    TotalPrefixStep(SampleLoads, 6, w);
    assert Total(SampleLoads[..7], w) == 122200;
    TotalPrefixStep(SampleLoads, 7, w);
    assert Total(SampleLoads[..8], w) == -34800;
    TotalPrefixStep(SampleLoads, 8, w);
    assert Total(SampleLoads[..9], w) == -334800;
    TotalPrefixStep(SampleLoads, 9, w);
    assert Total(SampleLoads[..10], w) == -34800;
    assert SampleLoads[..10] == SampleLoads;
  }

  /** The sample run on a fresh database ends 348 USD short. */
  lemma SampleRunScenario()
    ensures SampleRun(Fresh) == Ok((-34800, Short(34800)))
  {
    InsertAllMovesUsdPosition(Fresh, SampleLoads);
    SampleSignedTotal();
    var t := InsertAll(Fresh, SampleLoads).value;
    assert Position(Fresh.journal, CashUsd, Usd) == 0;
    assert Position(t.journal, CashUsd, Usd) == -34800;
    assert ComputeUsdPosition(t) == Ok(-34800);
  }
}
