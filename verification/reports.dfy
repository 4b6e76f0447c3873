/**
  Reporting over the journal: the cash position of one account in one
  currency, and the client ledger with a running balance per currency.
*/
module Reports {
  import opened Results
  import opened Sums
  import opened Ledger

  // --------------------------------------------------------------- position

  /** Debit minus credit of the lines on one account in one currency; 0 for any other line. */
  function PositionWeight(account: Code, currency: Code): Line -> int {
    (l: Line) => if l.account == account && l.currency == currency then l.debit - l.credit else 0
  }

  /** The net position of an account in a currency over a journal. */
  function Position(journal: seq<Line>, account: Code, currency: Code): int {
    Total(journal, PositionWeight(account, currency))
  }

  /** A journal without lines on the account and currency has position 0. */
  lemma PositionNoLines(journal: seq<Line>, account: Code, currency: Code)
    requires forall i :: 0 <= i < |journal| ==>
               journal[i].account != account || journal[i].currency != currency
    ensures Position(journal, account, currency) == 0
  {
    TotalZero(journal, PositionWeight(account, currency));
  }

  /** Positions add up over consecutive stretches of the journal. */
  lemma PositionAppend(a: seq<Line>, b: seq<Line>, account: Code, currency: Code)
    ensures Position(a + b, account, currency) == Position(a, account, currency) + Position(b, account, currency)
  {
    TotalAppend(a, b, PositionWeight(account, currency));
  }

  /** The position depends only on which lines were posted, not on their order. */
  lemma PositionPermutation(a: seq<Line>, b: seq<Line>, account: Code, currency: Code)
    requires multiset(a) == multiset(b)
    ensures Position(a, account, currency) == Position(b, account, currency)
  {
    TotalPermutation(a, b, PositionWeight(account, currency));
  }

  /** Posting two independent batches in either order gives the same position. */
  lemma PositionCommutes(j: seq<Line>, p: seq<Line>, q: seq<Line>, account: Code, currency: Code)
    ensures Position(j + p + q, account, currency) == Position(j + q + p, account, currency)
  {
    assert multiset(j + p + q) == multiset(j + q + p);
    PositionPermutation(j + p + q, j + q + p, account, currency);
  }

  /**
    The aggregate query: SUM(debit) - SUM(credit) over the matching lines,
    0 when none match.
  */
  method PositionQuery(journal: seq<Line>, account: Code, currency: Code) returns (p: int)
    ensures p == Position(journal, account, currency)
  {
    var debits, credits := 0, 0;
    for i := 0 to |journal|
      invariant debits - credits == Position(journal[..i], account, currency)
    {
      TotalPrefixStep(journal, i, PositionWeight(account, currency));
      var l := journal[i];
      if l.account == account && l.currency == currency {
        debits := debits + l.debit;
        credits := credits + l.credit;
      }
    }
    assert journal[..|journal|] == journal;
    p := debits - credits;
  }

  datatype PositionReport = PositionReport(usdPosition: int, arsBalance: int)

  /**
    get_position: the USD position of USD cash and the ARS balance of ARS
    cash; fails only when one of the two accounts is not in the chart.
  */
  method GetPosition(s: Store) returns (r: Result<PositionReport, Error>)
    ensures r.Err? <==> CashUsd !in s.catalog.accounts || CashArs !in s.catalog.accounts
    ensures r.Err? ==> r.error == NotFound(Accounts, if CashUsd !in s.catalog.accounts then CashUsd else CashArs)
    ensures r.Ok? ==> r.value == PositionReport(Position(s.journal, CashUsd, Usd),
                                                Position(s.journal, CashArs, Ars))
  {
    var usdAccount := Resolve(s.catalog, Accounts, CashUsd);
    if usdAccount.Err? {
      return Err(usdAccount.error);
    }
    var usd := PositionQuery(s.journal, CashUsd, Usd);
    var arsAccount := Resolve(s.catalog, Accounts, CashArs);
    if arsAccount.Err? {
      return Err(arsAccount.error);
    }
    var ars := PositionQuery(s.journal, CashArs, Ars);
    return Ok(PositionReport(usd, ars));
  }

  // ---------------------------------------------------------- client ledger

  /**
    The receivable or payable accounts a ledger covers: the ARS account
    unless the filter names another currency, then the USD account unless
    the filter names another currency; clients use 1100/1101, every other
    party kind 2100/2101.
  */
  function LedgerAccounts(kind: string, currency: Option<string>): (codes: seq<Code>)
    ensures (ClientsArs in codes || SuppliersArs in codes) <==>
            currency.None? || currency.value == "" || currency.value == Ars
    ensures (ClientsUsd in codes || SuppliersUsd in codes) <==>
            currency.None? || currency.value == "" || currency.value == Usd
    ensures forall c :: c in codes ==> (c == ClientsArs || c == ClientsUsd <==> kind == ClientKind)
    ensures forall c :: c in codes ==> c in {ClientsArs, ClientsUsd, SuppliersArs, SuppliersUsd}
  {
    var all := currency.None? || currency.value == "";
    (if all || currency.value == Ars then [if kind == ClientKind then ClientsArs else SuppliersArs] else [])
    + (if all || currency.value == Usd then [if kind == ClientKind then ClientsUsd else SuppliersUsd] else [])
  }

  /** The filter of one ledger request. */
  datatype LedgerQuery = LedgerQuery(codes: seq<Code>, party: nat, start: Option<Day>, end: Option<Day>)

  /** Inclusive date range; an absent bound does not filter. */
  predicate InRange(d: Day, start: Option<Day>, end: Option<Day>) {
    (start.None? || start.value <= d) && (end.None? || d <= end.value)
  }

  /** Whether journal line i joins a stored operation and passes the ledger filter. */
  predicate Keeps(s: Store, q: LedgerQuery, i: nat)
    requires i < |s.journal|
  {
    var l := s.journal[i];
    && l.op < |s.operations|
    && l.account in q.codes
    && s.operations[l.op].header.party == q.party
    && InRange(s.operations[l.op].header.date, q.start, q.end)
  }

  /** A journal line joined with its operation header. */
  datatype Entry = Entry(
    id: nat,
    date: Day,
    operationType: Code,
    notes: Option<string>,
    debit: int,
    credit: int,
    currency: Code)

  function EntryOf(s: Store, i: nat): Entry
    requires i < |s.journal| && s.journal[i].op < |s.operations|
  {
    var l := s.journal[i];
    var h := s.operations[l.op].header;
    Entry(i, h.date, h.operationType, h.notes, l.debit, l.credit, l.currency)
  }

  /** The kept lines among the first n, in line-id order. */
  function Selected(s: Store, q: LedgerQuery, n: nat): seq<Entry>
    requires n <= |s.journal|
  {
    if n == 0 then []
    else
      var prefix := Selected(s, q, n - 1);
      if Keeps(s, q, n - 1) then prefix + [EntryOf(s, n - 1)] else prefix
  }

  /** The selection holds exactly the kept lines, in increasing line-id order. */
  lemma {:induction false} SelectedExactly(s: Store, q: LedgerQuery, n: nat)
    requires n <= |s.journal|
    ensures var es := Selected(s, q, n);
            forall e :: e in es <==> e.id < n && Keeps(s, q, e.id) && e == EntryOf(s, e.id)
    ensures var es := Selected(s, q, n);
            forall a, b :: 0 <= a < b < |es| ==> es[a].id < es[b].id
  {
    if n > 0 {
      SelectedExactly(s, q, n - 1);
    }
  }

  /** (date, line id) order, as ORDER BY date ASC, id ASC. */
  predicate NotAfter(a: Entry, b: Entry) {
    a.date < b.date || (a.date == b.date && a.id <= b.id)
  }

  predicate Ordered(es: seq<Entry>) {
    forall a, b :: 0 <= a < b < |es| ==> NotAfter(es[a], es[b])
  }

  /** Inserts one entry into an ordered sequence. */
  function Insert(x: Entry, es: seq<Entry>): (r: seq<Entry>)
    requires Ordered(es)
    ensures Ordered(r)
    ensures multiset(r) == multiset(es) + multiset{x}
    ensures forall e :: e in r ==> e == x || e in es
  {
    if |es| == 0 then [x]
    else if NotAfter(x, es[0]) then
      InsertFront(x, es);
      [x] + es
    else
      var rest := Insert(x, es[1..]);
      InsertBehind(x, es, rest);
      assert es == [es[0]] + es[1..];
      [es[0]] + rest
  }

  lemma InsertFront(x: Entry, es: seq<Entry>)
    requires Ordered(es) && |es| > 0 && NotAfter(x, es[0])
    ensures Ordered([x] + es)
  {
    forall b | 0 < b <= |es|
      ensures NotAfter(x, ([x] + es)[b])
    {
      assert ([x] + es)[b] == es[b - 1];
      if b - 1 > 0 {
        assert NotAfter(es[0], es[b - 1]);
      }
    }
  }

  lemma InsertBehind(x: Entry, es: seq<Entry>, rest: seq<Entry>)
    requires Ordered(es) && |es| > 0 && !NotAfter(x, es[0])
    requires Ordered(rest)
    requires forall e :: e in rest ==> e == x || e in es[1..]
    ensures Ordered([es[0]] + rest)
  {
    var r := [es[0]] + rest;
    forall b | 0 < b < |r|
      ensures NotAfter(es[0], r[b])
    {
      assert r[b] == rest[b - 1];
      assert rest[b - 1] in rest;
      if rest[b - 1] != x {
        var j :| 0 <= j < |es[1..]| && es[1..][j] == rest[b - 1];
        assert es[1..][j] == es[j + 1];
      }
    }
    forall a, b | 0 < a < b < |r|
      ensures NotAfter(r[a], r[b])
    {
      assert r[a] == rest[a - 1] && r[b] == rest[b - 1];
    }
  }

  /** Orders entries by (date, line id). */
  function SortEntries(es: seq<Entry>): (r: seq<Entry>)
    ensures Ordered(r)
    ensures multiset(r) == multiset(es)
  {
    if |es| == 0 then []
    else
      assert es == [es[0]] + es[1..];
      Insert(es[0], SortEntries(es[1..]))
  }

  /** The rows a ledger query returns, before running balances. */
  function LedgerEntries(s: Store, q: LedgerQuery): (es: seq<Entry>)
    ensures Ordered(es)
    ensures forall e :: e in es <==> e.id < |s.journal| && Keeps(s, q, e.id) && e == EntryOf(s, e.id)
    ensures multiset(es) == multiset(Selected(s, q, |s.journal|))
    ensures forall a, b :: 0 <= a < b < |es| ==> es[a].id != es[b].id
  {
    SortedSelection(s, q);
    SortEntries(Selected(s, q, |s.journal|))
  }

  /** Sorting the selection keeps exactly the kept lines, each once. */
  lemma SortedSelection(s: Store, q: LedgerQuery)
    ensures var r := SortEntries(Selected(s, q, |s.journal|));
            && (forall e :: e in r <==> e.id < |s.journal| && Keeps(s, q, e.id) && e == EntryOf(s, e.id))
            && (forall a, b :: 0 <= a < b < |r| ==> r[a].id != r[b].id)
  {
    var sel := Selected(s, q, |s.journal|);
    SelectedExactly(s, q, |s.journal|);
    var r := SortEntries(sel);
    assert forall e :: e in r <==> e in sel by {
      assert forall e :: e in r <==> e in multiset(r);
      assert forall e :: e in sel <==> e in multiset(sel);
    }
    SortedOnce(sel, r);
  }

  /** A sequence with strictly increasing ids holds each entry at most once. */
  lemma {:induction false} AtMostOnce(xs: seq<Entry>, x: Entry)
    requires forall a, b :: 0 <= a < b < |xs| ==> xs[a].id < xs[b].id
    ensures multiset(xs)[x] <= 1
  {
    if |xs| > 0 {
      var init := xs[..|xs| - 1];
      assert forall a, b :: 0 <= a < b < |init| ==> init[a].id < init[b].id by {
        forall a, b | 0 <= a < b < |init| ensures init[a].id < init[b].id {
          assert init[a] == xs[a] && init[b] == xs[b];
        }
      }
      AtMostOnce(init, x);
      assert xs == init + [xs[|xs| - 1]];
      if x == xs[|xs| - 1] {
        forall i | 0 <= i < |init| ensures init[i] != x {
          assert init[i] == xs[i];
        }
        assert x !in init;
      }
    }
  }

  /** An entry at two positions is counted at least twice. */
  lemma Twice(xs: seq<Entry>, a: nat, b: nat)
    requires a < b < |xs| && xs[a] == xs[b]
    ensures multiset(xs)[xs[a]] >= 2
  {
    assert xs == xs[..b] + [xs[b]] + xs[b + 1..];
    assert xs[..b][a] == xs[a];
  }

  /** Sorting a selection with distinct line ids keeps the ids distinct. */
  lemma SortedOnce(sel: seq<Entry>, r: seq<Entry>)
    requires forall a, b :: 0 <= a < b < |sel| ==> sel[a].id < sel[b].id
    requires multiset(r) == multiset(sel)
    requires forall e, f :: e in r && f in r && e.id == f.id ==> e == f
    ensures forall a, b :: 0 <= a < b < |r| ==> r[a].id != r[b].id
  {
    forall a, b | 0 <= a < b < |r|
      ensures r[a].id != r[b].id
    {
      if r[a].id == r[b].id {
        assert r[a] in r && r[b] in r;
        Twice(r, a, b);
        AtMostOnce(sel, r[a]);
        assert false;
      }
    }
  }

  /** The weight of an entry in its currency's running balance. */
  function CurrencyWeight(currency: Code): Entry -> int {
    (e: Entry) => if e.currency == currency then e.debit - e.credit else 0
  }

  /** Debit minus credit over the entries in one currency. */
  function Balance(es: seq<Entry>, currency: Code): int {
    Total(es, CurrencyWeight(currency))
  }

  datatype LedgerRow = LedgerRow(
    date: Day,
    operationType: Code,
    description: Option<string>,
    debit: int,
    credit: int,
    currency: Code,
    balance: int)

  function RowOf(e: Entry, balance: int): LedgerRow {
    LedgerRow(e.date, e.operationType, e.notes, e.debit, e.credit, e.currency, balance)
  }

  /** Each row carries its entry and the balance of its own currency up to and including it. */
  ghost predicate RunningRows(rows: seq<LedgerRow>, es: seq<Entry>) {
    && |rows| == |es|
    && forall k :: 0 <= k < |es| ==> rows[k] == RowOf(es[k], Balance(es[..k + 1], es[k].currency))
  }

  /** Attaches a running balance per currency, one map entry per currency seen. */
  method RunningBalances(es: seq<Entry>) returns (rows: seq<LedgerRow>)
    ensures RunningRows(rows, es)
  {
    var balances: map<Code, int> := map[];
    rows := [];
    for i := 0 to |es|
      invariant |rows| == i
      invariant forall k :: 0 <= k < i ==> rows[k] == RowOf(es[k], Balance(es[..k + 1], es[k].currency))
      invariant forall c :: c in balances ==> balances[c] == Balance(es[..i], c)
      invariant forall c :: c !in balances ==> Balance(es[..i], c) == 0
    {
      var e := es[i];
      BalanceStep(es, i);
      var b := if e.currency in balances then balances[e.currency] else 0;
      b := b + (e.debit - e.credit);
      assert b == Balance(es[..i + 1], e.currency);
      balances := balances[e.currency := b];
      rows := rows + [RowOf(e, b)];
    }
  }

  /** One more entry moves only its own currency's balance, by its debit minus credit. */
  lemma BalanceStep(es: seq<Entry>, i: nat)
    requires i < |es|
    ensures forall c :: Balance(es[..i + 1], c)
                        == Balance(es[..i], c) + (if es[i].currency == c then es[i].debit - es[i].credit else 0)
  {
    forall c
      ensures Balance(es[..i + 1], c) == Balance(es[..i], c) + CurrencyWeight(c)(es[i])
    {
      TotalPrefixStep(es, i, CurrencyWeight(c));
    }
  }

  /**
    client_ledger: the party's lines on its receivable/payable accounts in
    the date range, ordered by (date, line id), each with the running
    balance of its currency. An unknown party name is an error.
  */
  method ClientLedger(s: Store, partyName: string, start: Option<Day>, end: Option<Day>, currency: Option<string>)
    returns (r: Result<seq<LedgerRow>, Error>)
    ensures FindParty(s.parties, partyName).None? <==> r.Err?
    ensures r.Err? ==> r.error == PartyNotFound
    ensures r.Ok? ==>
              var party := FindParty(s.parties, partyName).value;
              var q := LedgerQuery(LedgerAccounts(s.parties[party].kind, currency), party, start, end);
              RunningRows(r.value, LedgerEntries(s, q))
  {
    var found := FindParty(s.parties, partyName);
    if found.None? {
      return Err(PartyNotFound);
    }
    var party := found.value;
    var q := LedgerQuery(LedgerAccounts(s.parties[party].kind, currency), party, start, end);
    var rows := RunningBalances(LedgerEntries(s, q));
    return Ok(rows);
  }

  /** The kept lines' debit minus credit in one currency, as a weight on journal lines. */
  function KeptWeight(s: Store, q: LedgerQuery, currency: Code): Line -> int {
    (l: Line) =>
      if l.op < |s.operations| && l.account in q.codes && l.currency == currency
         && s.operations[l.op].header.party == q.party
         && InRange(s.operations[l.op].header.date, q.start, q.end)
      then l.debit - l.credit else 0
  }

  /** Summing the selected entries is summing the kept journal lines. */
  lemma {:induction false} SelectedBalance(s: Store, q: LedgerQuery, n: nat, currency: Code)
    requires n <= |s.journal|
    ensures Balance(Selected(s, q, n), currency) == Total(s.journal[..n], KeptWeight(s, q, currency))
  {
    if n > 0 {
      var prefix := Selected(s, q, n - 1);
      SelectedBalance(s, q, n - 1, currency);
      TotalPrefixStep(s.journal, n - 1, KeptWeight(s, q, currency));
      if Keeps(s, q, n - 1) {
        assert Selected(s, q, n) == prefix + [EntryOf(s, n - 1)];
        TotalSnoc(prefix, EntryOf(s, n - 1), CurrencyWeight(currency));
        assert KeptWeight(s, q, currency)(s.journal[n - 1])
            == CurrencyWeight(currency)(EntryOf(s, n - 1));
      } else {
        assert Selected(s, q, n) == prefix;
        assert KeptWeight(s, q, currency)(s.journal[n - 1]) == 0;
      }
    }
  }

  /**
    The closing balance of a currency: the last row in that currency carries
    the debit-minus-credit sum of every entry in that currency.
  */
  lemma ClosingBalance(rows: seq<LedgerRow>, es: seq<Entry>, k: nat)
    requires RunningRows(rows, es)
    requires k < |rows|
    requires forall j :: k < j < |rows| ==> rows[j].currency != rows[k].currency
    ensures rows[k].balance == Balance(es, rows[k].currency)
  {
    forall j | k < j < |es|
      ensures es[j].currency != es[k].currency
    {
      assert rows[j].currency == es[j].currency;
    }
    LastInCurrency(es, k);
  }

  /**
    A ledger's entries in one currency sum to the debit-minus-credit of every
    journal line of the party's operations on the covered accounts, in the
    date range and currency, whatever their order.
  */
  lemma LedgerTotal(s: Store, q: LedgerQuery, currency: Code)
    ensures Balance(LedgerEntries(s, q), currency) == Total(s.journal, KeptWeight(s, q, currency))
  {
    var sel := Selected(s, q, |s.journal|);
    assert LedgerEntries(s, q) == SortEntries(sel);
    TotalPermutation(LedgerEntries(s, q), sel, CurrencyWeight(currency));
    SelectedBalance(s, q, |s.journal|, currency);
    assert s.journal[..|s.journal|] == s.journal;
  }

  /** Past the last entry of a currency, that currency's balance no longer moves. */
  lemma LastInCurrency(es: seq<Entry>, k: nat)
    requires k < |es|
    requires forall j :: k < j < |es| ==> es[j].currency != es[k].currency
    ensures Balance(es[..k + 1], es[k].currency) == Balance(es, es[k].currency)
  {
    var c := es[k].currency;
    var tail := es[k + 1..];
    assert es == es[..k + 1] + tail;
    forall i | 0 <= i < |tail|
      ensures CurrencyWeight(c)(tail[i]) == 0
    {
      assert tail[i] == es[k + 1 + i];
    }
    TotalZero(tail, CurrencyWeight(c));
    TotalAppend(es[..k + 1], tail, CurrencyWeight(c));
  }
}
