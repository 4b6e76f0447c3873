/**
  The stand-alone FX loader: inserts FX operations without validating the
  direction, then reports the net USD position and whether it is long,
  short or neutral. The script commits once at the end, so any failure
  leaves nothing behind.
*/
module FxScript {
  import opened Results
  import opened Sums
  import opened Ledger
  import opened Posting
  import opened Reports

  /** The script books every operation as user 1, the administrator. */
  const Admin: nat := 1

  /**
    insert_fx_operation: "buy" buys, any other text sells; the header holds
    the USD amount and the rate, the detail the ARS equivalent.
  */
  function InsertFxOperation(s: Store, date: Day, partyName: string, fxType: string, usdAmount: int, exchangeRate: int)
    : (r: Result<Store, Error>)
    ensures r.Ok? <==>
              && FxOperationType(fxType == "buy") in s.catalog.operationTypes
              && Usd in s.catalog.currencies && Ars in s.catalog.currencies
              && CashUsd in s.catalog.accounts && CashArs in s.catalog.accounts
    ensures r.Ok? ==>
              var (parties, party) := GetOrCreateParty(s.parties, partyName);
              var arsAmount := ArsEquivalent(usdAmount, exchangeRate);
              && r.value.catalog == s.catalog
              && r.value.parties == parties
              && r.value.cheques == s.cheques
              && r.value.nextCheque == s.nextCheque
              && r.value.operations == s.operations + [Operation(
                   Header(date, FxOperationType(fxType == "buy"), party, usdAmount, Usd, Some(exchangeRate), None, Admin),
                   FxDetail(usdAmount, arsAmount, fxType))]
              && r.value.journal == s.journal + FxLegs(|s.operations|, fxType == "buy", usdAmount, arsAmount)
  {
    var buy := fxType == "buy";
    var opType := FxOperationType(buy);
    var typeId :- Resolve(s.catalog, OperationTypes, opType);
    var usdId :- Resolve(s.catalog, Currencies, Usd);
    var arsId :- Resolve(s.catalog, Currencies, Ars);
    var (parties, party) := GetOrCreateParty(s.parties, partyName);
    var arsAmount := ArsEquivalent(usdAmount, exchangeRate);
    var usdAccount :- Resolve(s.catalog, Accounts, CashUsd);
    var arsAccount :- Resolve(s.catalog, Accounts, CashArs);
    Ok(Commit(s.(parties := parties), Posting(
      Header(date, opType, party, usdAmount, Usd, Some(exchangeRate), None, Admin),
      FxDetail(usdAmount, arsAmount, fxType),
      FxLegs(|s.operations|, buy, usdAmount, arsAmount))))
  }

  /**
    For the two valid directions the script and the service book the same
    journal lines and resolve the same party; they fail on the same
    catalogs, except that the service keeps the party it resolved.
  */
  lemma ScriptAgreesWithService(s: Store, req: FxRequest, actor: nat)
    requires req.fxType == "buy" || req.fxType == "sell"
    ensures var script := InsertFxOperation(s, req.date, req.partyName, req.fxType, req.usdAmount, req.exchangeRate);
            var service := CreateFx(s, req, actor);
            && (script.Ok? <==> service.result.Ok?)
            && (script.Ok? ==> script.value.journal == service.store.journal
                               && script.value.parties == service.store.parties)
  {
  }

  /** Direction text other than "buy" — "Buy", "BUY", "" — is booked as a sell. */
  lemma AnyOtherTextSells(s: Store, date: Day, partyName: string, fxType: string, usdAmount: int, exchangeRate: int)
    requires fxType != "buy"
    requires InsertFxOperation(s, date, partyName, fxType, usdAmount, exchangeRate).Ok?
    ensures var t := InsertFxOperation(s, date, partyName, fxType, usdAmount, exchangeRate).value;
            && t.journal[|s.journal|] == Debit(|s.operations|, CashArs, Ars, ArsEquivalent(usdAmount, exchangeRate))
            && t.journal[|s.journal| + 1] == Credit(|s.operations|, CashUsd, Usd, usdAmount)
            && t.operations[|s.operations|].header.operationType == "FX_SELL"
  {
  }

  /** compute_usd_position: debit minus credit on USD cash in USD. */
  function ComputeUsdPosition(s: Store): (r: Result<int, Error>)
    ensures r.Err? <==> CashUsd !in s.catalog.accounts
    ensures r.Ok? ==> r.value == Position(s.journal, CashUsd, Usd)
  {
    var account :- Resolve(s.catalog, Accounts, CashUsd);
    Ok(Position(s.journal, CashUsd, Usd))
  }

  /** The USD position depends only on which lines are in the journal, not on their order. */
  lemma UsdPositionOrderFree(s: Store, t: Store)
    requires s.catalog == t.catalog && multiset(s.journal) == multiset(t.journal)
    ensures ComputeUsdPosition(s) == ComputeUsdPosition(t)
  {
    PositionPermutation(s.journal, t.journal, CashUsd, Usd);
  }

  /** Each inserted operation moves the USD position by + the amount for a buy, - for a sell. */
  lemma InsertMovesUsdPosition(s: Store, date: Day, partyName: string, fxType: string, usdAmount: int, exchangeRate: int)
    requires InsertFxOperation(s, date, partyName, fxType, usdAmount, exchangeRate).Ok?
    ensures var t := InsertFxOperation(s, date, partyName, fxType, usdAmount, exchangeRate).value;
            Position(t.journal, CashUsd, Usd)
            == Position(s.journal, CashUsd, Usd) + (if fxType == "buy" then usdAmount else -usdAmount)
  {
    var t := InsertFxOperation(s, date, partyName, fxType, usdAmount, exchangeRate).value;
    var legs := FxLegs(|s.operations|, fxType == "buy", usdAmount, ArsEquivalent(usdAmount, exchangeRate));
    PositionAppend(s.journal, legs, CashUsd, Usd);
    TotalSnoc([legs[0]], legs[1], PositionWeight(CashUsd, Usd));
    TotalSnoc([], legs[0], PositionWeight(CashUsd, Usd));
    assert [] + [legs[0]] == [legs[0]];
    assert [legs[0]] + [legs[1]] == legs;
  }

  /** One operation of a script run. */
  datatype FxLoad = FxLoad(date: Day, partyName: string, fxType: string, usdAmount: int, exchangeRate: int)

  /** Inserts operations in order; the first failure aborts the whole run. */
  function InsertAll(s: Store, loads: seq<FxLoad>): Result<Store, Error>
    decreases |loads|
  {
    if |loads| == 0 then Ok(s)
    else
      var l := loads[0];
      var t :- InsertFxOperation(s, l.date, l.partyName, l.fxType, l.usdAmount, l.exchangeRate);
      InsertAll(t, loads[1..])
  }

  /** The USD an operation adds to the position: + for a buy, - for anything else. */
  const SignedUsd: FxLoad -> int := (l: FxLoad) => if l.fxType == "buy" then l.usdAmount else -l.usdAmount

  /** The directions' codes an FX run needs. */
  predicate FxReady(cat: Catalog) {
    && "FX_BUY" in cat.operationTypes && "FX_SELL" in cat.operationTypes
    && Usd in cat.currencies && Ars in cat.currencies
    && CashUsd in cat.accounts && CashArs in cat.accounts
  }

  /**
    On a catalog with the FX codes every run succeeds, and it moves the USD
    position by the signed sum of its amounts.
  */
  lemma {:induction false} InsertAllMovesUsdPosition(s: Store, loads: seq<FxLoad>)
    requires FxReady(s.catalog)
    ensures InsertAll(s, loads).Ok?
    ensures InsertAll(s, loads).value.catalog == s.catalog
    ensures Position(InsertAll(s, loads).value.journal, CashUsd, Usd)
            == Position(s.journal, CashUsd, Usd) + Total(loads, SignedUsd)
    decreases |loads|
  {
    if |loads| > 0 {
      var l := loads[0];
      var t := InsertFxOperation(s, l.date, l.partyName, l.fxType, l.usdAmount, l.exchangeRate);
      assert t.Ok?;
      InsertMovesUsdPosition(s, l.date, l.partyName, l.fxType, l.usdAmount, l.exchangeRate);
      InsertAllMovesUsdPosition(t.value, loads[1..]);
      assert loads == [l] + loads[1..];
      TotalAppend([l], loads[1..], SignedUsd);
      TotalSnoc([], l, SignedUsd);
      assert [] + [l] == [l];
    }
  }

  /** How the script reports a position. */
  datatype Stance = Short(amount: int) | Long(amount: int) | Neutral

  /** Below zero is short by the absolute amount, above zero long, exactly zero neutral. */
  function Classify(position: int): (r: Stance)
    ensures r.Short? <==> position < 0
    ensures r.Long? <==> position > 0
    ensures r.Neutral? <==> position == 0
    ensures !r.Neutral? ==> r.amount > 0 && (r.amount == position || r.amount == -position)
  {
    if position < 0 then Short(-position)
    else if position > 0 then Long(position)
    else Neutral
  }
}
