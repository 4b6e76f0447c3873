/**
  The posting engine: one rule per operation type turns a request into an
  operation header, a detail record and journal lines, and one endpoint per
  rule runs the validations, the party resolution and the write in the order
  the service does.
*/
module Posting {
  import opened Results
  import opened Money
  import opened Sums
  import opened Ledger

  // ---------------------------------------------------------------- totals

  const DebitWeight: Line -> int := (l: Line) => l.debit
  const CreditWeight: Line -> int := (l: Line) => l.credit

  /** Total debits and total credits of a set of lines. */
  function Debits(lines: seq<Line>): int { Total(lines, DebitWeight) }
  function Credits(lines: seq<Line>): int { Total(lines, CreditWeight) }

  /** Debit and credit totals of a line sequence built by concatenation. */
  lemma DebitsCreditsAppend(a: seq<Line>, b: seq<Line>)
    ensures Debits(a + b) == Debits(a) + Debits(b)
    ensures Credits(a + b) == Credits(a) + Credits(b)
  {
    TotalAppend(a, b, DebitWeight);
    TotalAppend(a, b, CreditWeight);
  }

  lemma DebitsCreditsOne(l: Line)
    ensures Debits([l]) == l.debit && Credits([l]) == l.credit
  {
    TotalSnoc([], l, DebitWeight);
    TotalSnoc([], l, CreditWeight);
    assert [] + [l] == [l];
  }

  /** A line only when its amount is positive, as the rules' `if amount > 0` guards. */
  function IfPositive(l: Line, amount: int): seq<Line> {
    if amount > 0 then [l] else []
  }

  lemma IfPositiveTotals(op: nat, account: Code, currency: Code, amount: int)
    ensures Debits(IfPositive(Debit(op, account, currency, amount), amount)) == Pos(amount)
    ensures Credits(IfPositive(Debit(op, account, currency, amount), amount)) == 0
    ensures Debits(IfPositive(Credit(op, account, currency, amount), amount)) == 0
    ensures Credits(IfPositive(Credit(op, account, currency, amount), amount)) == Pos(amount)
  {
    DebitsCreditsOne(Debit(op, account, currency, amount));
    DebitsCreditsOne(Credit(op, account, currency, amount));
  }

  /** Each line moves money on one side only. */
  predicate OneSided(lines: seq<Line>) {
    forall i :: 0 <= i < |lines| ==> lines[i].debit == 0 || lines[i].credit == 0
  }

  /** All lines are in one currency. */
  predicate InCurrency(lines: seq<Line>, currency: Code) {
    forall i :: 0 <= i < |lines| ==> lines[i].currency == currency
  }

  /** All lines belong to one operation. */
  predicate OfOperation(lines: seq<Line>, op: nat) {
    forall i :: 0 <= i < |lines| ==> lines[i].op == op
  }

  // ------------------------------------------------------------ FX buy/sell

  datatype FxRequest = FxRequest(
    date: Day,
    partyName: string,
    fxType: string,
    usdAmount: int,
    exchangeRate: int,
    notes: Option<string>)

  /** The ARS equivalent of a USD amount at a rate, rounded to cents. */
  function ArsEquivalent(usdAmount: int, exchangeRate: int): int {
    Round2(usdAmount * exchangeRate, RateScale)
  }

  /**
    The two legs of an FX operation: a buy debits USD cash and credits ARS
    cash, anything else (a sell) does the mirror image.
  */
  function FxLegs(op: nat, buy: bool, usdAmount: int, arsAmount: int): (lines: seq<Line>)
    ensures |lines| == 2 && OneSided(lines) && OfOperation(lines, op)
    ensures lines[0].credit == 0 && lines[1].debit == 0
    ensures lines[0].currency != lines[1].currency
    ensures buy ==> (lines[0] == Debit(op, CashUsd, Usd, usdAmount)
                     && lines[1] == Credit(op, CashArs, Ars, arsAmount))
    ensures !buy ==> (lines[0] == Debit(op, CashArs, Ars, arsAmount)
                      && lines[1] == Credit(op, CashUsd, Usd, usdAmount))
  {
    if buy then [Debit(op, CashUsd, Usd, usdAmount), Credit(op, CashArs, Ars, arsAmount)]
    else [Debit(op, CashArs, Ars, arsAmount), Credit(op, CashUsd, Usd, usdAmount)]
  }

  function Mirror(l: Line): Line {
    l.(debit := l.credit, credit := l.debit)
  }

  /** A sell posts exactly the buy's legs with the sides swapped, in reverse order. */
  lemma FxSellMirrorsBuy(op: nat, usdAmount: int, arsAmount: int)
    ensures var buy := FxLegs(op, true, usdAmount, arsAmount);
            FxLegs(op, false, usdAmount, arsAmount) == [Mirror(buy[1]), Mirror(buy[0])]
  {
  }

  function FxOperationType(buy: bool): Code {
    if buy then "FX_BUY" else "FX_SELL"
  }

  /** The FX posting rule, for an `fx_type` already known to be buy or sell. */
  function FxRule(cat: Catalog, req: FxRequest, party: nat, op: nat, actor: nat): (r: Result<Posting, Error>)
    ensures r.Ok? <==>
              && FxOperationType(req.fxType == "buy") in cat.operationTypes
              && Usd in cat.currencies && Ars in cat.currencies
              && CashUsd in cat.accounts && CashArs in cat.accounts
    ensures r.Ok? ==>
              && r.value.header == Header(req.date, FxOperationType(req.fxType == "buy"), party,
                                          req.usdAmount, Usd, Some(req.exchangeRate), req.notes, actor)
              && r.value.detail == FxDetail(req.usdAmount, ArsEquivalent(req.usdAmount, req.exchangeRate), req.fxType)
              && r.value.lines == FxLegs(op, req.fxType == "buy", req.usdAmount, r.value.detail.arsAmount)
  {
    var buy := req.fxType == "buy";
    var opType := FxOperationType(buy);
    var typeId :- Resolve(cat, OperationTypes, opType);
    var usdId :- Resolve(cat, Currencies, Usd);
    var arsId :- Resolve(cat, Currencies, Ars);
    var arsAmount := ArsEquivalent(req.usdAmount, req.exchangeRate);
    var usdAccount :- Resolve(cat, Accounts, CashUsd);
    var arsAccount :- Resolve(cat, Accounts, CashArs);
    Ok(Posting(
      Header(req.date, opType, party, req.usdAmount, Usd, Some(req.exchangeRate), req.notes, actor),
      FxDetail(req.usdAmount, arsAmount, req.fxType),
      FxLegs(op, buy, req.usdAmount, arsAmount)))
  }

  /**
    Cross-currency conservation of an FX posting: the USD leg moves the USD
    amount, the ARS leg moves exactly that amount times the rate, rounded
    to cents, and the two legs are on opposite sides.
  */
  lemma FxConservation(cat: Catalog, req: FxRequest, party: nat, op: nat, actor: nat)
    requires FxRule(cat, req, party, op, actor).Ok?
    ensures var lines := FxRule(cat, req, party, op, actor).value.lines;
            var usd := if lines[0].currency == Usd then lines[0] else lines[1];
            var ars := if lines[0].currency == Usd then lines[1] else lines[0];
            && usd.currency == Usd && ars.currency == Ars
            && usd.debit + usd.credit == req.usdAmount
            && ars.debit + ars.credit == Round2(req.usdAmount * req.exchangeRate, RateScale)
            && (req.fxType == "buy" ==> usd.credit == 0 && ars.debit == 0)
            && (req.fxType != "buy" ==> usd.debit == 0 && ars.credit == 0)
  {
  }

  /** create_fx: validate the type, resolve the party, then post. */
  function CreateFx(s: Store, req: FxRequest, actor: nat): (r: Reply<nat>)
    ensures req.fxType != "buy" && req.fxType != "sell" ==> r == Reply(s, Err(InvalidFxType))
    ensures (req.fxType == "buy" || req.fxType == "sell") ==>
              r.store.parties == GetOrCreateParty(s.parties, req.partyName).0
    ensures (req.fxType == "buy" || req.fxType == "sell") ==>
              var p := FxRule(s.catalog, req, GetOrCreateParty(s.parties, req.partyName).1, |s.operations|, actor);
              && (r.result.Ok? <==> p.Ok?)
              && (p.Err? ==> r.result == Err(p.error))
    ensures r.result.Err? ==> r.store == s.(parties := r.store.parties)
    ensures r.result.Ok? ==>
              && r.result.value == |s.operations|
              && var p := FxRule(s.catalog, req, GetOrCreateParty(s.parties, req.partyName).1,
                                 |s.operations|, actor);
                 p.Ok? && r.store == Commit(s.(parties := r.store.parties), p.value)
  {
    if req.fxType != "buy" && req.fxType != "sell" then
      Reply(s, Err(InvalidFxType))
    else
      var (parties, party) := GetOrCreateParty(s.parties, req.partyName);
      var s1 := s.(parties := parties);
      match FxRule(s.catalog, req, party, |s.operations|, actor)
      case Err(e) => Reply(s1, Err(e))
      case Ok(p) => Reply(Commit(s1, p), Ok(|s.operations|))
  }

  // ---------------------------------------------------- payments and receipts

  /** The request shape shared by payments and receipts. */
  datatype ChargeRequest = ChargeRequest(
    date: Day,
    partyName: string,
    currency: Code,
    gross: int,
    commissionAmount: Option<int>,
    commissionPercentage: Option<int>,
    expensesAmount: Option<int>,
    paymentMethod: Option<string>,
    notes: Option<string>)

  /**
    The commission: a nonzero percentage wins and is applied to the gross,
    rounded to cents; otherwise the given amount, 0 when absent.
  */
  function Commission(req: ChargeRequest): (c: int)
    ensures req.commissionPercentage.Some? && req.commissionPercentage.value != 0 ==>
              var x := req.gross * req.commissionPercentage.value;
              var d := 100 * RateScale;
              && -d <= 2 * (x - c * d) <= d
              && (2 * (x - c * d) == -d ==> x > 0)
              && (2 * (x - c * d) == d ==> x < 0)
    ensures req.commissionPercentage.None? || req.commissionPercentage.value == 0 ==>
              c == req.commissionAmount.GetOr(0)
  {
    if req.commissionPercentage.Some? && req.commissionPercentage.value != 0 then
      Round2(req.gross * req.commissionPercentage.value, 100 * RateScale)
    else
      req.commissionAmount.GetOr(0)
  }

  function Expenses(req: ChargeRequest): int {
    req.expensesAmount.GetOr(0)
  }

  function TotalPaid(req: ChargeRequest): int {
    req.gross + Commission(req) + Expenses(req)
  }

  function NetReceived(req: ChargeRequest): int {
    req.gross - Commission(req) - Expenses(req)
  }

  /** A whole percentage of a gross in whole units is exact: 10% of 1000 is 100. */
  lemma CommissionWholePercent(req: ChargeRequest, p: int)
    requires p != 0 && req.commissionPercentage == Some(p * RateScale)
    requires req.gross % 100 == 0
    ensures Commission(req) == req.gross / 100 * p
  {
    var g := req.gross / 100;
    assert req.gross == 100 * g;
    assert req.gross * (p * RateScale) == (g * p) * (100 * RateScale) by {
      assert req.gross * (p * RateScale) == (100 * g) * (p * 10000);
    }
    Round2Exact(g * p, 100 * RateScale);
  }

  /** A nonzero percentage overrides any commission amount given with it. */
  lemma PercentageWins(req: ChargeRequest, amount: Option<int>)
    requires req.commissionPercentage.Some? && req.commissionPercentage.value != 0
    ensures Commission(req.(commissionAmount := amount)) == Commission(req)
  {
  }

  /**
    A payment adds the charges on top of the gross, a receipt takes them
    out of it, so the two figures lie symmetrically around the gross.
  */
  lemma ChargesAroundGross(req: ChargeRequest)
    ensures TotalPaid(req) - req.gross == Commission(req) + Expenses(req) == req.gross - NetReceived(req)
    ensures TotalPaid(req) + NetReceived(req) == 2 * req.gross
    ensures Commission(req) >= 0 && Expenses(req) >= 0 ==> NetReceived(req) <= req.gross <= TotalPaid(req)
  {
  }

  function ChargesOf(req: ChargeRequest): Charges {
    Charges(req.gross, Commission(req), req.commissionPercentage, Expenses(req), req.paymentMethod)
  }

  /** Cash account of a currency: ARS cash for pesos, USD cash for anything else. */
  function CashAccount(currency: Code): Code {
    if currency == Ars then CashArs else CashUsd
  }

  function ClientsAccount(currency: Code): Code {
    if currency == Ars then ClientsArs else ClientsUsd
  }

  function SuppliersAccount(currency: Code): Code {
    if currency == Ars then SuppliersArs else SuppliersUsd
  }

  /** The account a payment debits: payables for a supplier, receivables otherwise. */
  function PayeeAccount(kind: string, currency: Code): Code {
    if kind == SupplierKind then SuppliersAccount(currency) else ClientsAccount(currency)
  }

  /** The account a receipt credits: receivables for a client, payables otherwise. */
  function PayerAccount(kind: string, currency: Code): Code {
    if kind == ClientKind then ClientsAccount(currency) else SuppliersAccount(currency)
  }

  /**
    Payments and receipts pick the same party account for the two known
    party kinds, and opposite accounts for any other kind text.
  */
  lemma PartyAccountAgreement(kind: string, currency: Code)
    ensures kind == ClientKind || kind == SupplierKind <==>
            PayeeAccount(kind, currency) == PayerAccount(kind, currency)
  {
  }

  function PaymentLines(op: nat, req: ChargeRequest, kind: string): seq<Line> {
    [Debit(op, PayeeAccount(kind, req.currency), req.currency, req.gross)]
    + IfPositive(Debit(op, CommissionExpense, req.currency, Commission(req)), Commission(req))
    + IfPositive(Debit(op, CommissionExpense, req.currency, Expenses(req)), Expenses(req))
    + [Credit(op, CashAccount(req.currency), req.currency, TotalPaid(req))]
  }

  /** The payment posting rule, after the currency and the party are resolved. */
  function PaymentRule(cat: Catalog, req: ChargeRequest, party: nat, kind: string, op: nat, actor: nat)
    : (r: Result<Posting, Error>)
    ensures r.Ok? <==>
              && PayeeAccount(kind, req.currency) in cat.accounts
              && CashAccount(req.currency) in cat.accounts
              && CommissionExpense in cat.accounts
              && "PAYMENT" in cat.operationTypes
    ensures r.Ok? ==>
              && r.value.header == Header(req.date, "PAYMENT", party, req.gross, req.currency, None, req.notes, actor)
              && r.value.detail == PaymentDetail(ChargesOf(req))
              && r.value.lines == PaymentLines(op, req, kind)
  {
    var partyAccount :- Resolve(cat, Accounts, PayeeAccount(kind, req.currency));
    var cashAccount :- Resolve(cat, Accounts, CashAccount(req.currency));
    var expenseAccount :- Resolve(cat, Accounts, CommissionExpense);
    var typeId :- Resolve(cat, OperationTypes, "PAYMENT");
    Ok(Posting(
      Header(req.date, "PAYMENT", party, req.gross, req.currency, None, req.notes, actor),
      PaymentDetail(ChargesOf(req)),
      PaymentLines(op, req, kind)))
  }

  /**
    What a payment books: the party account is debited the gross, 5300 the
    positive commission and the positive expenses, one line each, and cash
    is credited the total paid, all in the request's currency.
  */
  lemma PaymentShape(op: nat, req: ChargeRequest, kind: string)
    ensures var lines := PaymentLines(op, req, kind);
            && 2 <= |lines| <= 4
            && OneSided(lines) && InCurrency(lines, req.currency) && OfOperation(lines, op)
            && lines[0] == Debit(op, PayeeAccount(kind, req.currency), req.currency, req.gross)
            && lines[|lines| - 1] == Credit(op, CashAccount(req.currency), req.currency, TotalPaid(req))
            && |lines| == 2 + (if Commission(req) > 0 then 1 else 0) + (if Expenses(req) > 0 then 1 else 0)
            && (forall i :: 0 < i < |lines| - 1 ==>
                  lines[i].account == CommissionExpense && lines[i].credit == 0 && lines[i].debit > 0)
            && (Commission(req) > 0 ==> lines[1] == Debit(op, CommissionExpense, req.currency, Commission(req)))
            && (Expenses(req) > 0 ==>
                  lines[|lines| - 2] == Debit(op, CommissionExpense, req.currency, Expenses(req)))
  {
  }

  /**
    A payment balances exactly when its commission and expenses are not
    negative: debits are the gross plus the positive charges, the single
    credit is the total paid.
  */
  lemma {:induction false} PaymentBalance(op: nat, req: ChargeRequest, kind: string)
    ensures Debits(PaymentLines(op, req, kind)) == req.gross + Pos(Commission(req)) + Pos(Expenses(req))
    ensures Credits(PaymentLines(op, req, kind)) == TotalPaid(req)
    ensures Debits(PaymentLines(op, req, kind)) == Credits(PaymentLines(op, req, kind))
            <==> Commission(req) >= 0 && Expenses(req) >= 0
  {
    var c := Commission(req);
    var e := Expenses(req);
    var first := [Debit(op, PayeeAccount(kind, req.currency), req.currency, req.gross)];
    var cl := IfPositive(Debit(op, CommissionExpense, req.currency, c), c);
    var el := IfPositive(Debit(op, CommissionExpense, req.currency, e), e);
    var last := [Credit(op, CashAccount(req.currency), req.currency, TotalPaid(req))];
    DebitsCreditsAppend(first, cl);
    DebitsCreditsAppend(first + cl, el);
    DebitsCreditsAppend(first + cl + el, last);
    DebitsCreditsOne(first[0]);
    DebitsCreditsOne(last[0]);
    IfPositiveTotals(op, CommissionExpense, req.currency, c);
    IfPositiveTotals(op, CommissionExpense, req.currency, e);
  }

  /** create_payment: resolve the currency, then the party, then post. */
  function CreatePayment(s: Store, req: ChargeRequest, actor: nat): (r: Reply<(nat, int)>)
    ensures req.currency !in s.catalog.currencies ==> r == Reply(s, Err(NotFound(Currencies, req.currency)))
    ensures req.currency in s.catalog.currencies ==>
              r.store.parties == GetOrCreateParty(s.parties, req.partyName).0
    ensures req.currency in s.catalog.currencies ==>
              var (ps, party) := GetOrCreateParty(s.parties, req.partyName);
              var p := PaymentRule(s.catalog, req, party, ps[party].kind, |s.operations|, actor);
              && (r.result.Ok? <==> p.Ok?)
              && (p.Err? ==> r.result == Err(p.error))
    ensures r.result.Err? ==> r.store == s.(parties := r.store.parties)
    ensures r.result.Ok? ==>
              && r.result.value == (|s.operations|, TotalPaid(req))
              && var (ps, party) := GetOrCreateParty(s.parties, req.partyName);
                 var p := PaymentRule(s.catalog, req, party, ps[party].kind, |s.operations|, actor);
                 p.Ok? && r.store == Commit(s.(parties := ps), p.value)
  {
    match Resolve(s.catalog, Currencies, req.currency)
    case Err(e) => Reply(s, Err(e))
    case Ok(_) =>
      var (parties, party) := GetOrCreateParty(s.parties, req.partyName);
      var s1 := s.(parties := parties);
      match PaymentRule(s.catalog, req, party, parties[party].kind, |s.operations|, actor)
      case Err(e) => Reply(s1, Err(e))
      case Ok(p) => Reply(Commit(s1, p), Ok((|s.operations|, TotalPaid(req))))
  }

  function ReceiptLines(op: nat, req: ChargeRequest, kind: string): seq<Line> {
    [Credit(op, PayerAccount(kind, req.currency), req.currency, req.gross),
     Debit(op, CashAccount(req.currency), req.currency, NetReceived(req))]
    + IfPositive(Credit(op, CommissionIncome, req.currency, Commission(req)), Commission(req))
    + IfPositive(Credit(op, CommissionIncome, req.currency, Expenses(req)), Expenses(req))
  }

  /** The receipt posting rule, after the net check, the currency and the party. */
  function ReceiptRule(cat: Catalog, req: ChargeRequest, party: nat, kind: string, op: nat, actor: nat)
    : (r: Result<Posting, Error>)
    ensures r.Ok? <==>
              && PayerAccount(kind, req.currency) in cat.accounts
              && CashAccount(req.currency) in cat.accounts
              && CommissionIncome in cat.accounts
              && "RECEIPT" in cat.operationTypes
    ensures r.Ok? ==>
              && r.value.header == Header(req.date, "RECEIPT", party, req.gross, req.currency, None, req.notes, actor)
              && r.value.detail == ReceiptDetail(ChargesOf(req))
              && r.value.lines == ReceiptLines(op, req, kind)
  {
    var partyAccount :- Resolve(cat, Accounts, PayerAccount(kind, req.currency));
    var cashAccount :- Resolve(cat, Accounts, CashAccount(req.currency));
    var incomeAccount :- Resolve(cat, Accounts, CommissionIncome);
    var typeId :- Resolve(cat, OperationTypes, "RECEIPT");
    Ok(Posting(
      Header(req.date, "RECEIPT", party, req.gross, req.currency, None, req.notes, actor),
      ReceiptDetail(ChargesOf(req)),
      ReceiptLines(op, req, kind)))
  }

  /**
    What a receipt books: the party account is credited the gross, cash is
    debited the net received, and 5200 is credited the positive commission
    and the positive expenses, all in the request's currency.
  */
  lemma ReceiptShape(op: nat, req: ChargeRequest, kind: string)
    ensures var lines := ReceiptLines(op, req, kind);
            && 2 <= |lines| <= 4
            && OneSided(lines) && InCurrency(lines, req.currency) && OfOperation(lines, op)
            && lines[0] == Credit(op, PayerAccount(kind, req.currency), req.currency, req.gross)
            && lines[1] == Debit(op, CashAccount(req.currency), req.currency, NetReceived(req))
            && |lines| == 2 + (if Commission(req) > 0 then 1 else 0) + (if Expenses(req) > 0 then 1 else 0)
            && (forall i :: 2 <= i < |lines| ==>
                  lines[i].account == CommissionIncome && lines[i].debit == 0 && lines[i].credit > 0)
            && (Commission(req) > 0 ==> lines[2] == Credit(op, CommissionIncome, req.currency, Commission(req)))
            && (Expenses(req) > 0 ==>
                  lines[|lines| - 1] == Credit(op, CommissionIncome, req.currency, Expenses(req)))
  {
  }

  /**
    The receipt's books do not balance: debits are the net received while
    credits are the gross plus the positive charges, so with non-negative
    charges credits exceed debits by twice the charges.
  */
  lemma {:induction false} ReceiptImbalance(op: nat, req: ChargeRequest, kind: string)
    ensures Debits(ReceiptLines(op, req, kind)) == NetReceived(req)
    ensures Credits(ReceiptLines(op, req, kind)) == req.gross + Pos(Commission(req)) + Pos(Expenses(req))
    ensures Commission(req) >= 0 && Expenses(req) >= 0 ==>
              Credits(ReceiptLines(op, req, kind)) - Debits(ReceiptLines(op, req, kind))
              == 2 * (Commission(req) + Expenses(req))
  {
    var c := Commission(req);
    var e := Expenses(req);
    var first := [Credit(op, PayerAccount(kind, req.currency), req.currency, req.gross),
                  Debit(op, CashAccount(req.currency), req.currency, NetReceived(req))];
    var cl := IfPositive(Credit(op, CommissionIncome, req.currency, c), c);
    var el := IfPositive(Credit(op, CommissionIncome, req.currency, e), e);
    DebitsCreditsAppend([first[0]], [first[1]]);
    assert [first[0]] + [first[1]] == first;
    DebitsCreditsAppend(first, cl);
    DebitsCreditsAppend(first + cl, el);
    DebitsCreditsOne(first[0]);
    DebitsCreditsOne(first[1]);
    IfPositiveTotals(op, CommissionIncome, req.currency, c);
    IfPositiveTotals(op, CommissionIncome, req.currency, e);
  }

  /** create_receipt: refuse a negative net, resolve the currency and the party, then post. */
  function CreateReceipt(s: Store, req: ChargeRequest, actor: nat): (r: Reply<(nat, int)>)
    ensures NetReceived(req) < 0 ==> r == Reply(s, Err(NegativeNet))
    ensures NetReceived(req) >= 0 && req.currency !in s.catalog.currencies ==>
              r == Reply(s, Err(NotFound(Currencies, req.currency)))
    ensures NetReceived(req) >= 0 && req.currency in s.catalog.currencies ==>
              r.store.parties == GetOrCreateParty(s.parties, req.partyName).0
    ensures NetReceived(req) >= 0 && req.currency in s.catalog.currencies ==>
              var (ps, party) := GetOrCreateParty(s.parties, req.partyName);
              var p := ReceiptRule(s.catalog, req, party, ps[party].kind, |s.operations|, actor);
              && (r.result.Ok? <==> p.Ok?)
              && (p.Err? ==> r.result == Err(p.error))
    ensures r.result.Err? ==> r.store == s.(parties := r.store.parties)
    ensures r.result.Ok? ==>
              && r.result.value == (|s.operations|, NetReceived(req))
              && NetReceived(req) >= 0
              && var (ps, party) := GetOrCreateParty(s.parties, req.partyName);
                 var p := ReceiptRule(s.catalog, req, party, ps[party].kind, |s.operations|, actor);
                 p.Ok? && r.store == Commit(s.(parties := ps), p.value)
  {
    if NetReceived(req) < 0 then
      Reply(s, Err(NegativeNet))
    else
      match Resolve(s.catalog, Currencies, req.currency)
      case Err(e) => Reply(s, Err(e))
      case Ok(_) =>
        var (parties, party) := GetOrCreateParty(s.parties, req.partyName);
        var s1 := s.(parties := parties);
        match ReceiptRule(s.catalog, req, party, parties[party].kind, |s.operations|, actor)
        case Err(e) => Reply(s1, Err(e))
        case Ok(p) => Reply(Commit(s1, p), Ok((|s.operations|, NetReceived(req))))
  }

  // ------------------------------------------------------------- cheque buy

  datatype ChequeRequest = ChequeRequest(
    date: Day,
    partyName: string,
    currency: Code,
    bank: string,
    number: string,
    nominal: int,
    dueDate: Day,
    issueDate: Option<Day>,
    expectedAccreditation: Option<Day>,
    interestRate: int,
    interestBase: int,
    commissionsAmount: Option<int>,
    expensesAmount: Option<int>,
    notes: Option<string>)

  /** Whole days from the operation date to the due date (negative when already due). */
  function TermDays(req: ChequeRequest): int {
    req.dueDate - req.date
  }

  /**
    Discount interest nominal * rate * days / base, rounded to cents; a base
    of zero days is a division by zero.
  */
  function ChequeInterest(req: ChequeRequest): (r: Result<int, Error>)
    ensures r.Err? <==> req.interestBase == 0
    ensures r.Err? ==> r.error == ZeroInterestBase
    ensures r.Ok? ==>
              var n := req.nominal * req.interestRate * TermDays(req);
              var d := req.interestBase * RateScale;
              -Abs(d) <= 2 * (n - r.value * d) <= Abs(d)
    ensures r.Ok? && req.interestBase > 0 ==>
              r.value == Round2(req.nominal * req.interestRate * TermDays(req), req.interestBase * RateScale)
    ensures r.Ok? && req.interestBase < 0 ==>
              r.value == Round2(-(req.nominal * req.interestRate * TermDays(req)), -req.interestBase * RateScale)
  {
    var n := req.nominal * req.interestRate * TermDays(req);
    if req.interestBase == 0 then Err(ZeroInterestBase)
    else if req.interestBase > 0 then Ok(Round2(n, req.interestBase * RateScale))
    else
      var q := Round2(-n, -req.interestBase * RateScale);
      assert q * (-req.interestBase * RateScale) == -(q * (req.interestBase * RateScale));
      Ok(q)
  }

  function ChequeCommissions(req: ChequeRequest): int {
    req.commissionsAmount.GetOr(0)
  }

  function ChequeExpenses(req: ChequeRequest): int {
    req.expensesAmount.GetOr(0)
  }

  /** What is paid out for the cheque: nominal less interest, commissions and expenses. */
  function ChequeNet(req: ChequeRequest, interest: int): int {
    req.nominal - interest - ChequeCommissions(req) - ChequeExpenses(req)
  }

  /**
    The net paid out and the three deductions add back up to the nominal;
    a non-negative net means the deductions do not exceed the nominal.
  */
  lemma ChequeNetSplit(req: ChequeRequest, interest: int)
    ensures ChequeNet(req, interest) + interest + ChequeCommissions(req) + ChequeExpenses(req) == req.nominal
    ensures ChequeNet(req, interest) >= 0 <==> interest + ChequeCommissions(req) + ChequeExpenses(req) <= req.nominal
  {
  }

  /** The cheque record a purchase files: status pending. */
  function NewCheque(req: ChequeRequest, op: nat, party: nat, interest: int): Cheque {
    Cheque(op, party, req.bank, req.number, req.nominal, req.issueDate, req.dueDate,
           req.expectedAccreditation, req.interestRate, req.interestBase,
           ChequeExpenses(req), ChequeCommissions(req), ChequeNet(req, interest), Pending, req.currency)
  }

  function ChequeLines(op: nat, req: ChequeRequest, interest: int): seq<Line> {
    [Debit(op, ChequePortfolio, req.currency, req.nominal),
     Credit(op, CashAccount(req.currency), req.currency, ChequeNet(req, interest))]
    + IfPositive(Credit(op, InterestIncome, req.currency, interest), interest)
    + IfPositive(Credit(op, CommissionIncome, req.currency, ChequeCommissions(req)), ChequeCommissions(req))
    + IfPositive(Debit(op, CommissionExpense, req.currency, ChequeExpenses(req)), ChequeExpenses(req))
  }

  /** The cheque-buy posting rule, after the net check, the currency and the party. */
  function ChequeBuyRule(cat: Catalog, req: ChequeRequest, interest: int, party: nat, op: nat, actor: nat)
    : (r: Result<Posting, Error>)
    ensures r.Ok? <==>
              && "CHEQUE_BUY" in cat.operationTypes
              && ChequePortfolio in cat.accounts && CashAccount(req.currency) in cat.accounts
              && InterestIncome in cat.accounts && CommissionIncome in cat.accounts
              && CommissionExpense in cat.accounts
    ensures r.Ok? ==>
              && r.value.header == Header(req.date, "CHEQUE_BUY", party, req.nominal, req.currency, None, req.notes, actor)
              && r.value.detail == ChequeDetail(NewCheque(req, op, party, interest))
              && r.value.detail.cheque.status == Pending
              && r.value.lines == ChequeLines(op, req, interest)
  {
    var typeId :- Resolve(cat, OperationTypes, "CHEQUE_BUY");
    var portfolio :- Resolve(cat, Accounts, ChequePortfolio);
    var cashAccount :- Resolve(cat, Accounts, CashAccount(req.currency));
    var interestAccount :- Resolve(cat, Accounts, InterestIncome);
    var incomeAccount :- Resolve(cat, Accounts, CommissionIncome);
    var expenseAccount :- Resolve(cat, Accounts, CommissionExpense);
    Ok(Posting(
      Header(req.date, "CHEQUE_BUY", party, req.nominal, req.currency, None, req.notes, actor),
      ChequeDetail(NewCheque(req, op, party, interest)),
      ChequeLines(op, req, interest)))
  }

  /**
    What a cheque purchase books: the portfolio is debited the nominal and
    cash credited the net, then the positive interest (5400) and commissions
    (5200) are credited and positive expenses (5300) debited.
  */
  lemma ChequeShape(op: nat, req: ChequeRequest, interest: int)
    ensures var lines := ChequeLines(op, req, interest);
            && 2 <= |lines| <= 5
            && OneSided(lines) && InCurrency(lines, req.currency) && OfOperation(lines, op)
            && lines[0] == Debit(op, ChequePortfolio, req.currency, req.nominal)
            && lines[1] == Credit(op, CashAccount(req.currency), req.currency, ChequeNet(req, interest))
            && |lines| == 2 + (if interest > 0 then 1 else 0) + (if ChequeCommissions(req) > 0 then 1 else 0)
                          + (if ChequeExpenses(req) > 0 then 1 else 0)
            && (interest > 0 ==> lines[2] == Credit(op, InterestIncome, req.currency, interest))
            && (ChequeCommissions(req) > 0 ==>
                  lines[if interest > 0 then 3 else 2]
                  == Credit(op, CommissionIncome, req.currency, ChequeCommissions(req)))
            && (ChequeExpenses(req) > 0 ==>
                  lines[|lines| - 1] == Debit(op, CommissionExpense, req.currency, ChequeExpenses(req)))
            && (forall i :: 2 <= i < |lines| ==>
                  (lines[i].account == InterestIncome || lines[i].account == CommissionIncome
                   || lines[i].account == CommissionExpense)
                  && (lines[i].account == CommissionExpense <==> lines[i].debit > 0)
                  && (lines[i].debit == 0 || lines[i].credit == 0))
  {
  }

  /**
    The cheque purchase's books do not balance: debits are the nominal plus
    positive expenses, credits the net plus positive interest and
    commissions, so with non-negative charges debits exceed credits by
    twice the expenses.
  */
  lemma {:induction false} ChequeImbalance(op: nat, req: ChequeRequest, interest: int)
    ensures Debits(ChequeLines(op, req, interest)) == req.nominal + Pos(ChequeExpenses(req))
    ensures Credits(ChequeLines(op, req, interest))
            == ChequeNet(req, interest) + Pos(interest) + Pos(ChequeCommissions(req))
    ensures interest >= 0 && ChequeCommissions(req) >= 0 && ChequeExpenses(req) >= 0 ==>
              Debits(ChequeLines(op, req, interest)) - Credits(ChequeLines(op, req, interest))
              == 2 * ChequeExpenses(req)
  {
    var c := ChequeCommissions(req);
    var e := ChequeExpenses(req);
    var first := [Debit(op, ChequePortfolio, req.currency, req.nominal),
                  Credit(op, CashAccount(req.currency), req.currency, ChequeNet(req, interest))];
    var il := IfPositive(Credit(op, InterestIncome, req.currency, interest), interest);
    var cl := IfPositive(Credit(op, CommissionIncome, req.currency, c), c);
    var el := IfPositive(Debit(op, CommissionExpense, req.currency, e), e);
    DebitsCreditsAppend([first[0]], [first[1]]);
    assert [first[0]] + [first[1]] == first;
    DebitsCreditsAppend(first, il);
    DebitsCreditsAppend(first + il, cl);
    DebitsCreditsAppend(first + il + cl, el);
    DebitsCreditsOne(first[0]);
    DebitsCreditsOne(first[1]);
    IfPositiveTotals(op, InterestIncome, req.currency, interest);
    IfPositiveTotals(op, CommissionIncome, req.currency, c);
    IfPositiveTotals(op, CommissionExpense, req.currency, e);
  }

  /** What create_cheque_buy answers besides the operation id. */
  datatype ChequeFigures = ChequeFigures(operation: nat, interest: int, commissions: int, expenses: int, net: int)

  /**
    create_cheque_buy: compute interest and net, refuse a negative net,
    resolve the currency and the party, then post and file the cheque.
  */
  function CreateChequeBuy(s: Store, req: ChequeRequest, actor: nat): (r: Reply<ChequeFigures>)
    ensures req.interestBase == 0 ==> r == Reply(s, Err(ZeroInterestBase))
    ensures ChequeInterest(req).Ok? && ChequeNet(req, ChequeInterest(req).value) < 0 ==>
              r == Reply(s, Err(NegativeNet))
    ensures ChequeInterest(req).Ok? && ChequeNet(req, ChequeInterest(req).value) >= 0
            && req.currency !in s.catalog.currencies ==>
              r == Reply(s, Err(NotFound(Currencies, req.currency)))
    ensures ChequeInterest(req).Ok? && ChequeNet(req, ChequeInterest(req).value) >= 0
            && req.currency in s.catalog.currencies ==>
              var (ps, party) := GetOrCreateParty(s.parties, req.partyName);
              var p := ChequeBuyRule(s.catalog, req, ChequeInterest(req).value, party, |s.operations|, actor);
              && r.store.parties == ps
              && (r.result.Ok? <==> p.Ok?)
              && (p.Err? ==> r.result == Err(p.error))
    ensures r.result.Err? ==> r.store == s.(parties := r.store.parties)
    ensures r.result.Err? && r.store.parties != s.parties ==>
              r.store.parties == GetOrCreateParty(s.parties, req.partyName).0
    ensures r.result.Ok? ==>
              && ChequeInterest(req).Ok?
              && var interest := ChequeInterest(req).value;
                 && r.result.value == ChequeFigures(|s.operations|, interest, ChequeCommissions(req),
                                                    ChequeExpenses(req), ChequeNet(req, interest))
                 && r.result.value.net >= 0
                 && var (ps, party) := GetOrCreateParty(s.parties, req.partyName);
                    var p := ChequeBuyRule(s.catalog, req, interest, party, |s.operations|, actor);
                    p.Ok? && r.store == Commit(s.(parties := ps), p.value)
  {
    match ChequeInterest(req)
    case Err(e) => Reply(s, Err(e))
    case Ok(interest) =>
      if ChequeNet(req, interest) < 0 then
        Reply(s, Err(NegativeNet))
      else
        match Resolve(s.catalog, Currencies, req.currency)
        case Err(e) => Reply(s, Err(e))
        case Ok(_) =>
          var (parties, party) := GetOrCreateParty(s.parties, req.partyName);
          var s1 := s.(parties := parties);
          match ChequeBuyRule(s.catalog, req, interest, party, |s.operations|, actor)
          case Err(e) => Reply(s1, Err(e))
          case Ok(p) =>
            Reply(Commit(s1, p), Ok(ChequeFigures(|s.operations|, interest, ChequeCommissions(req),
                                                  ChequeExpenses(req), ChequeNet(req, interest))))
  }

  // --------------------------------------------------------- store invariant

  /**
    Every posting endpoint keeps the store valid: each new line belongs to
    the operation it appends and a filed cheque gets a fresh id.
  */
  lemma FxPreservesValid(s: Store, req: FxRequest, actor: nat)
    requires s.Valid()
    ensures CreateFx(s, req, actor).store.Valid()
  {
    var r := CreateFx(s, req, actor);
    if r.result.Ok? {
      var (ps, party) := GetOrCreateParty(s.parties, req.partyName);
      var p := FxRule(s.catalog, req, party, |s.operations|, actor).value;
      assert LinesOf(s.(parties := ps), p.lines);
    }
  }

  lemma PaymentPreservesValid(s: Store, req: ChargeRequest, actor: nat)
    requires s.Valid()
    ensures CreatePayment(s, req, actor).store.Valid()
  {
    var r := CreatePayment(s, req, actor);
    if r.result.Ok? {
      var (ps, party) := GetOrCreateParty(s.parties, req.partyName);
      PaymentShape(|s.operations|, req, ps[party].kind);
      var p := PaymentRule(s.catalog, req, party, ps[party].kind, |s.operations|, actor).value;
      assert LinesOf(s.(parties := ps), p.lines);
    }
  }

  lemma ReceiptPreservesValid(s: Store, req: ChargeRequest, actor: nat)
    requires s.Valid()
    ensures CreateReceipt(s, req, actor).store.Valid()
  {
    var r := CreateReceipt(s, req, actor);
    if r.result.Ok? {
      var (ps, party) := GetOrCreateParty(s.parties, req.partyName);
      ReceiptShape(|s.operations|, req, ps[party].kind);
      var p := ReceiptRule(s.catalog, req, party, ps[party].kind, |s.operations|, actor).value;
      assert LinesOf(s.(parties := ps), p.lines);
    }
  }

  lemma ChequeBuyPreservesValid(s: Store, req: ChequeRequest, actor: nat)
    requires s.Valid()
    ensures CreateChequeBuy(s, req, actor).store.Valid()
  {
    var r := CreateChequeBuy(s, req, actor);
    if r.result.Ok? {
      var interest := ChequeInterest(req).value;
      var (ps, party) := GetOrCreateParty(s.parties, req.partyName);
      ChequeShape(|s.operations|, req, interest);
      var p := ChequeBuyRule(s.catalog, req, interest, party, |s.operations|, actor).value;
      assert LinesOf(s.(parties := ps), p.lines);
    }
  }
}
