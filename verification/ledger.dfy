/**
  The data model of the books: the chart of accounts and the other code
  catalogs, the party registry, operation headers with their detail records,
  journal lines, cheques, and the store that holds them all.
*/
module Ledger {
  import opened Results

  /** Stable string codes of accounts, currencies and operation types. */
  type Code = string

  /** A calendar day number; the engine only ever compares whole days. */
  type Day = int

  // Chart-of-accounts codes used by the posting rules and the reports.
  const CashArs: Code := "1010"
  const CashUsd: Code := "1020"
  const ClientsArs: Code := "1100"
  const ClientsUsd: Code := "1101"
  const SuppliersArs: Code := "2100"
  const SuppliersUsd: Code := "2101"
  const ChequePortfolio: Code := "1200"
  const CommissionIncome: Code := "5200"
  const CommissionExpense: Code := "5300"
  const InterestIncome: Code := "5400"

  const Ars: Code := "ARS"
  const Usd: Code := "USD"

  const ClientKind: string := "client"
  const SupplierKind: string := "supplier"

  datatype Table = Accounts | Currencies | OperationTypes

  /** Every way a request can be refused. */
  datatype Error =
    | NotFound(table: Table, code: Code)   // a code missing from its catalog
    | InvalidFxType                        // fx_type other than buy/sell
    | NegativeNet                          // a derived net amount below zero
    | ZeroInterestBase                     // interest divided by a base of 0 days
    | PartyNotFound                        // ledger asked for an unknown party
    | ChequeNotFound                       // status update of an unknown cheque
    | InvalidStatus                        // a status outside the five known

  /** The seeded catalogs, each a map from code to row id. */
  datatype Catalog = Catalog(
    accounts: map<Code, nat>,
    currencies: map<Code, nat>,
    operationTypes: map<Code, nat>)
  {
    function Rows(t: Table): map<Code, nat> {
      match t
      case Accounts => accounts
      case Currencies => currencies
      case OperationTypes => operationTypes
    }
  }

  /** The catalogs as the bootstrap script seeds them. */
  const Seeded: Catalog := Catalog(
    map["1010" := 1, "1020" := 2, "1030" := 3, "1040" := 4,
        "1100" := 5, "1101" := 6, "2100" := 7, "2101" := 8,
        "1200" := 9, "5100" := 10, "5200" := 11, "5300" := 12,
        "5400" := 13, "5500" := 14],
    map["ARS" := 1, "USD" := 2],
    map["FX_BUY" := 1, "FX_SELL" := 2, "PAYMENT" := 3, "RECEIPT" := 4,
        "CHEQUE_BUY" := 5, "CHEQUE_SELL" := 6])

  /** Looks a code up in one catalog; an absent code is an error. */
  function Resolve(cat: Catalog, t: Table, code: Code): (r: Result<nat, Error>)
    ensures r.Err? <==> code !in cat.Rows(t)
    ensures r.Err? ==> r.error == NotFound(t, code)
    ensures r.Ok? ==> r.value == cat.Rows(t)[code]
  {
    if code in cat.Rows(t) then Ok(cat.Rows(t)[code]) else Err(NotFound(t, code))
  }

  /** A counterparty; `kind` is the free-text type column ("client", "supplier", …). */
  datatype Party = Party(name: string, kind: string)

  /** The id (position) of the first party with exactly this name, if any. */
  function FindParty(parties: seq<Party>, name: string): (r: Option<nat>)
    ensures r.Some? ==> r.value < |parties| && parties[r.value].name == name
    ensures r.Some? ==> forall j :: 0 <= j < r.value ==> parties[j].name != name
    ensures r.None? <==> forall j :: 0 <= j < |parties| ==> parties[j].name != name
  {
    if |parties| == 0 then None
    else if parties[0].name == name then Some(0)
    else
      match FindParty(parties[1..], name)
      case Some(i) => Some(i + 1)
      case None => None
  }

  /**
    Resolves a party by exact name, registering a new `client` party at the
    end of the registry when no party has that name.
  */
  function GetOrCreateParty(parties: seq<Party>, name: string): (r: (seq<Party>, nat))
    ensures r.1 < |r.0| && r.0[r.1].name == name
    ensures FindParty(parties, name).Some? ==> r == (parties, FindParty(parties, name).value)
    ensures FindParty(parties, name).None? ==>
              r.0 == parties + [Party(name, ClientKind)] && r.1 == |parties|
  {
    match FindParty(parties, name)
    case Some(i) => (parties, i)
    case None => (parties + [Party(name, ClientKind)], |parties|)
  }

  /** Party resolution registers at most one party and is idempotent. */
  lemma GetOrCreatePartyStable(parties: seq<Party>, name: string)
    ensures var (ps, id) := GetOrCreateParty(parties, name);
            && FindParty(ps, name) == Some(id)
            && GetOrCreateParty(ps, name) == (ps, id)
            && ps[..|parties|] == parties
  {
    var (ps, id) := GetOrCreateParty(parties, name);
    if FindParty(parties, name).None? {
      assert forall j :: 0 <= j < |parties| ==> ps[j].name != name;
    }
  }

  /** One leg of an operation: an amount debited or credited to an account in a currency. */
  datatype Line = Line(op: nat, account: Code, currency: Code, debit: int, credit: int)

  function Debit(op: nat, account: Code, currency: Code, amount: int): Line {
    Line(op, account, currency, amount, 0)
  }

  function Credit(op: nat, account: Code, currency: Code, amount: int): Line {
    Line(op, account, currency, 0, amount)
  }

  /** The operation envelope. */
  datatype Header = Header(
    date: Day,
    operationType: Code,
    party: nat,
    amount: int,
    currency: Code,
    exchangeRate: Option<int>,
    notes: Option<string>,
    actor: nat)

  /** Gross, commission and expenses of a payment or a receipt. */
  datatype Charges = Charges(
    gross: int,
    commission: int,
    commissionPercentage: Option<int>,
    expenses: int,
    paymentMethod: Option<string>)

  datatype Status = Pending | Accredited | Expired | Rejected | Cancelled

  function StatusName(st: Status): string {
    match st
    case Pending => "pending"
    case Accredited => "accredited"
    case Expired => "expired"
    case Rejected => "rejected"
    case Cancelled => "cancelled"
  }

  /** Reads one of the five status names; any other text is not a status. */
  function ParseStatus(s: string): (r: Option<Status>)
    ensures r.Some? ==> StatusName(r.value) == s
    ensures r.None? <==> forall st: Status :: StatusName(st) != s
  {
    if s == "pending" then Some(Pending)
    else if s == "accredited" then Some(Accredited)
    else if s == "expired" then Some(Expired)
    else if s == "rejected" then Some(Rejected)
    else if s == "cancelled" then Some(Cancelled)
    else None
  }

  /** Every status reads back as itself. */
  lemma ParseStatusName(st: Status)
    ensures ParseStatus(StatusName(st)) == Some(st)
  {
  }

  datatype Cheque = Cheque(
    operation: nat,
    party: nat,
    bank: string,
    number: string,
    nominal: int,
    issueDate: Option<Day>,
    dueDate: Day,
    expectedAccreditation: Option<Day>,
    interestRate: int,
    interestBase: int,
    expenses: int,
    commissions: int,
    net: int,
    status: Status,
    currency: Code)

  /** The type-specific record an operation owns. */
  datatype Detail =
    | FxDetail(usdAmount: int, arsAmount: int, fxType: string)
    | PaymentDetail(payment: Charges)
    | ReceiptDetail(receipt: Charges)
    | ChequeDetail(cheque: Cheque)

  datatype Operation = Operation(header: Header, detail: Detail)

  /** What one posting rule produces for one request. */
  datatype Posting = Posting(header: Header, detail: Detail, lines: seq<Line>)

  /**
    The persistent state. Operation and journal-line ids are positions in
    their sequences (insertion order); cheques are keyed by id.
  */
  datatype Store = Store(
    catalog: Catalog,
    parties: seq<Party>,
    operations: seq<Operation>,
    journal: seq<Line>,
    cheques: map<int, Cheque>,
    nextCheque: int)
  {
    /** Every line belongs to a stored operation and every cheque id is below the next one. */
    ghost predicate Valid() {
      && (forall i :: 0 <= i < |journal| ==> journal[i].op < |operations|)
      && (forall k :: k in cheques ==> k < nextCheque)
    }
  }

  /** The store after a request, and what the request answered. */
  datatype Reply<T> = Reply(store: Store, result: Result<T, Error>)

  /** A posting's lines all belong to the operation about to be appended. */
  ghost predicate LinesOf(s: Store, lines: seq<Line>) {
    forall i :: 0 <= i < |lines| ==> lines[i].op == |s.operations|
  }

  /**
    Writes a posting: the header and detail become the next operation, the
    lines are appended to the journal and a cheque detail is filed under the
    next cheque id.
  */
  function Commit(s: Store, p: Posting): (t: Store)
    ensures t.catalog == s.catalog && t.parties == s.parties
    ensures t.operations == s.operations + [Operation(p.header, p.detail)]
    ensures t.journal == s.journal + p.lines
    ensures !p.detail.ChequeDetail? ==> t.cheques == s.cheques && t.nextCheque == s.nextCheque
    ensures p.detail.ChequeDetail? ==>
              && t.cheques == s.cheques[s.nextCheque := p.detail.cheque]
              && t.nextCheque == s.nextCheque + 1
    ensures s.Valid() && LinesOf(s, p.lines) ==> t.Valid()
  {
    var t := s.(operations := s.operations + [Operation(p.header, p.detail)],
                journal := s.journal + p.lines);
    if p.detail.ChequeDetail? then
      t.(cheques := s.cheques[s.nextCheque := p.detail.cheque], nextCheque := s.nextCheque + 1)
    else
      t
  }
}
