# Posting and reporting engine of a small FX / payments back office

This project is a Dafny model of the core of a back office that books
currency exchange, payments, receipts and cheque discounting as
double-entry journal lines against a fixed chart of accounts, and answers
position and client-ledger queries over those lines. It also models the
stand-alone FX loader script, which inserts FX operations and reports the
net USD position.

The model is functional. A `Store` value holds the catalogs, the party
registry, the operations, the journal and the cheques. Each endpoint is a
pure function from a store and a request to a `Reply`: the store after the
request, and either the answer or an `Error`.

- `money.dfy` (`Money`): amounts are integer cents. Rates and percentages are
  integers scaled by 10^4, the four decimals of their NUMERIC columns.
  `Round2(n, d)` rounds the exact quotient n/d to whole cents, halves away
  from zero.
- `sums.dfy` (`Sums`): `Total(s, w)` sums a weight over a sequence. It comes
  with lemmas for concatenation, zero weights and order independence
  (permutation).
- `ledger.dfy` (`Ledger`): catalogs (code → id maps), parties, headers,
  details, lines, cheques and the store. It also defines `Resolve`
  (code lookup), `GetOrCreateParty` and `Commit`, which writes one posting.
- `posting.dfy` (`Posting`): the four posting rules, the four endpoints, and
  the balance / imbalance lemmas.
- `reports.dfy` (`Reports`): the position query and the client ledger. The
  ledger selects lines, sorts them by (date, line id) and attaches a
  running balance per currency.
- `cheques.dfy` (`ChequeBook`): cheque status updates and the cheque listing.
- `fx_script.dfy` (`FxScript`): the loader script. Its `get_id` is
  `Ledger.Resolve`. Its `get_party_id` is `Ledger.GetOrCreateParty`.
- `scenarios.dfy` (`Scenarios`): the repository tests' end-to-end
  expectations, proved on the seeded catalogs.

Behaviour worth knowing, reproduced as written:

- **Receipts do not balance.** Cash is debited the net received. The party
  account is credited the gross, and 5200 is credited the commission and the
  expenses again. With non-negative charges, credits exceed debits by twice
  the charges (`ReceiptImbalance`).
- **Cheque purchases do not balance.** The debits are the nominal plus the
  expenses. The credits are the net plus the interest and the commissions.
  With non-negative charges, debits exceed credits by twice the expenses
  (`ChequeImbalance`).
- **Payments balance only for non-negative charges.** A payment balances
  exactly when its commission and expenses are not negative
  (`PaymentBalance`). Nothing in the code rejects negative ones.
- **Party kind is compared asymmetrically.** Payments treat a kind of
  "supplier" as a supplier and anything else as a client. Receipts and the
  ledger treat "client" as a client and anything else as a supplier
  (`PartyAccountAgreement`).
- **A new party outlives a failed posting.** `get_or_create_party` commits a
  new party on its own (app/main_sqlite.py:156). When a later lookup fails,
  the reply's store keeps the new party but nothing else changes.
- **Checks that come before any write.** The fx_type check, the receipt
  net check, the cheque net check and the interest-base division all happen
  before the party is resolved. The currency lookup of payments, receipts
  and cheque purchases also comes first. Each of them fails with the store
  unchanged.
- **The loader books anything but "buy" as a sell.** It does not validate
  the direction.
- **Any status may replace any other.** The cheque status update does not
  enforce a lifecycle order.
- **Party lookup by name returns the first match.** This is the lowest id,
  the row order of an unordered scan.

## Model

| member | source | states |
|---|---|---|
| Money.Round2 | app/main_sqlite.py:190 | the rounded amount is within half a cent of the exact quotient, and an exact half goes away from zero |
| Money.Round2Exact | app/main_sqlite.py:190 | an amount that is already whole cents is not changed by rounding |
| Ledger.Resolve | app/main_sqlite.py:137-143 | a code lookup fails with NotFound exactly when the code is absent from its catalog, otherwise it returns that code's id |
| Ledger.FindParty | app/main_sqlite.py:148-151 | finds the first party with exactly the given name, or reports that no party has it |
| Ledger.GetOrCreateParty | app/main_sqlite.py:146-157 | returns an existing party's id unchanged, else appends one new party of kind client with that name and returns its id |
| Ledger.GetOrCreatePartyStable | app/main_sqlite.py:146-157 | party resolution only ever appends, a second resolution of the same name finds the same party, and it creates nothing more |
| Ledger.ParseStatus | app/main_sqlite.py:617-619 | exactly the five status names are accepted, and each is read back as the status with that name |
| Ledger.ParseStatusName | app/main_sqlite.py:617 | every status name reads back as its own status |
| Ledger.Commit | app/main_sqlite.py:174-218 | a write appends one operation and its lines, files a cheque detail under a fresh id, touches nothing else, and keeps the store invariant; the same write serves payments, receipts, cheque purchases and the loader script |
| Posting.FxLegs | app/main_sqlite.py:198-217 | an FX operation posts exactly two lines in different currencies, one debit-only and one credit-only; a buy debits 1020 USD and credits 1010 ARS, a sell the reverse |
| Posting.FxSellMirrorsBuy | app/main_sqlite.py:198-217 | a sell's lines are the buy's lines with debit and credit swapped |
| Posting.FxRule | app/main_sqlite.py:169-217 | the FX rule succeeds exactly when its five codes exist (the direction's operation type, USD, ARS, 1020 and 1010); the header carries the USD amount in USD with the rate, and the detail carries the rounded ARS equivalent |
| Posting.FxConservation | app/main_sqlite.py:190-217 | the USD leg moves the USD amount and the ARS leg moves Round2(usd × rate), on opposite sides according to the direction |
| Posting.CreateFx | app/main_sqlite.py:160-219 | an fx_type other than buy/sell is refused with nothing written; otherwise the party is resolved and kept, and the request succeeds exactly when the FX rule finds its codes, failing with the rule's own error otherwise and writing nothing else |
| Posting.Commission | app/main_sqlite.py:269-271 | a nonzero percentage gives the gross × percentage / 100 rounded to cents, halves away from zero; otherwise the given commission amount, 0 when absent |
| Posting.CommissionWholePercent | app/main_sqlite.py:269-271 | a whole percentage of a gross in whole units is exact, as the tests expect (10% of 1000 is 100) |
| Posting.PercentageWins | app/main_sqlite.py:269-271 | with a nonzero percentage, any commission amount sent alongside is ignored |
| Posting.ChargesAroundGross | app/main_sqlite.py:269-273 | the total paid exceeds the gross by the charges and the net received falls short of it by the same charges |
| Posting.PartyAccountAgreement | app/main_sqlite.py:281-364 | payments and receipts choose the same party account exactly when the party kind is client or supplier |
| Posting.PaymentRule | app/main_sqlite.py:278-340 | the payment rule succeeds exactly when the party, cash and 5300 accounts and the PAYMENT type exist; the header amount is the gross in the request currency |
| Posting.PaymentShape | app/main_sqlite.py:319-340 | a payment debits the party account the gross, then 5300 the commission and the expenses when each is positive, in that order, credits cash the total paid, and stays in one currency |
| Posting.PaymentBalance | app/main_sqlite.py:269-340 | a payment's debits are gross plus the positive charges and its credit is gross + commission + expenses, so it balances exactly when neither charge is negative |
| Posting.CreatePayment | app/main_sqlite.py:266-342 | an unknown currency is refused before the party is resolved; otherwise the payment succeeds exactly when the payment rule finds its codes, answering the operation id and the total paid, and fails with the rule's error otherwise |
| Posting.ReceiptRule | app/main_sqlite.py:359-420 | the receipt rule succeeds exactly when the party, cash and 5200 accounts and the RECEIPT type exist |
| Posting.ReceiptShape | app/main_sqlite.py:398-420 | a receipt credits the party the gross, debits cash the net received, then credits 5200 the commission and the expenses when each is positive, in that order, and stays in one currency |
| Posting.ReceiptImbalance | app/main_sqlite.py:348-420 | a receipt's debits are the net received and its credits the gross plus the positive charges: credits exceed debits by twice the charges |
| Posting.CreateReceipt | app/main_sqlite.py:345-422 | a negative net received is refused first, an unknown currency next, both before the party is touched; otherwise the receipt succeeds exactly when the receipt rule finds its codes, answering the operation id and the net |
| Posting.ChequeInterest | app/main_sqlite.py:445-447 | interest is nominal × rate × days / base rounded to cents half away from zero, for a negative base as well; a zero base is a division error |
| Posting.ChequeNetSplit | app/main_sqlite.py:448-452 | the net and the three deductions add up to the nominal, and the net is non-negative exactly when the deductions do not exceed the nominal |
| Posting.ChequeBuyRule | app/main_sqlite.py:457-526 | the cheque-buy rule succeeds exactly when its type and five accounts exist, and it files a pending cheque carrying the computed net |
| Posting.ChequeShape | app/main_sqlite.py:499-526 | a cheque purchase debits 1200 the nominal, credits cash the net, then credits 5400 the interest, credits 5200 the commissions and debits 5300 the expenses, each only when positive and in that order |
| Posting.ChequeImbalance | app/main_sqlite.py:445-526 | a cheque purchase's debits are nominal plus positive expenses and its credits net plus positive interest and commissions: debits exceed credits by twice the expenses |
| Posting.CreateChequeBuy | app/main_sqlite.py:442-534 | a zero base, then a negative net, then an unknown currency is refused with nothing written; otherwise the party is resolved and the purchase succeeds exactly when the cheque-buy rule finds its codes, answering interest, commissions, expenses and a non-negative net |
| Posting.FxPreservesValid | app/main_sqlite.py:174-217 | an FX posting keeps every journal line attached to a stored operation |
| Posting.PaymentPreservesValid | app/main_sqlite.py:292-340 | a payment keeps every journal line attached to a stored operation |
| Posting.ReceiptPreservesValid | app/main_sqlite.py:371-420 | a receipt keeps every journal line attached to a stored operation |
| Posting.ChequeBuyPreservesValid | app/main_sqlite.py:458-526 | a cheque purchase keeps lines attached to operations and cheque ids unique |
| Reports.PositionNoLines | app/main_sqlite.py:227-231 | with no line on the account and currency the position is 0, not an error |
| Reports.PositionAppend | app/main_sqlite.py:227-238 | the position of a journal is the sum of the positions of its parts |
| Reports.PositionPermutation | app/main_sqlite.py:227-238 | the position depends only on the multiset of lines, not their order |
| Reports.PositionCommutes | app/main_sqlite.py:227-238 | posting two batches in either order gives the same position |
| Reports.PositionQuery | app/main_sqlite.py:227-231 | SUM(debit) - SUM(credit) over the matching lines equals the debit-minus-credit position |
| Reports.GetPosition | app/main_sqlite.py:222-239 | reports the 1020/USD position and the 1010/ARS balance, failing only when one of those accounts is missing |
| Reports.LedgerAccounts | app/main_sqlite.py:566-571 | a ledger covers the ARS account unless another currency is named, and the USD account unless another currency is named; client parties use 1100/1101 and every other kind 2100/2101 |
| Reports.SelectedExactly | app/main_sqlite.py:572-590 | the selection holds exactly the lines joined to that party's operations on the covered accounts within the inclusive date range, in line-id order |
| Reports.SortEntries | app/main_sqlite.py:591 | the rows come out ordered by (date, line id) and are a permutation of the selected rows |
| Reports.LedgerEntries | app/main_sqlite.py:572-593 | the ledger rows are ordered by (date, line id), are exactly the selected lines, a permutation of the selection, and no line appears twice |
| Reports.RunningBalances | app/main_sqlite.py:594-610 | each row's balance is the debit-minus-credit sum of the rows so far in its own currency only |
| Reports.ClientLedger | app/main_sqlite.py:551-611 | an unknown party name is PartyNotFound; otherwise the rows are the ordered selection, each with its currency's running balance |
| Reports.ClosingBalance | app/main_sqlite.py:594-611 | the last row in a currency carries the debit-minus-credit sum of all the rows in that currency |
| Reports.LedgerTotal | app/main_sqlite.py:572-601 | the rows in one currency sum to debit minus credit over exactly the party's journal lines on the covered accounts, in range and currency, in any order |
| ChequeBook.UpdateChequeStatus | app/main_sqlite.py:616-625 | an unknown status is refused first and an unknown id next, both changing nothing; otherwise only that cheque's status changes and the journal is never touched |
| ChequeBook.UpdatePreservesValid | app/main_sqlite.py:624 | a status update keeps the store invariant |
| ChequeBook.ListCheques | app/main_sqlite.py:537-547 | lists every cheque when no status or an empty one is given, else exactly the cheques with that status, unchanged |
| ChequeBook.ListUnknownStatus | app/main_sqlite.py:542-547 | filtering by a text that is not a status lists nothing |
| ChequeBook.UpdateThenList | app/main_sqlite.py:616-625 | after an update, the cheque is listed under its new status and under no other |
| FxScript.InsertFxOperation | fx_example.py:36-98 | inserts one FX operation: the header holds the USD amount and the rate, the detail the rounded ARS equivalent, the journal gains two legs, and the catalogs and cheques are untouched |
| FxScript.ScriptAgreesWithService | fx_example.py:36-98 | for buy and sell the script and the service succeed on the same catalogs and book the same lines and parties |
| FxScript.AnyOtherTextSells | fx_example.py:39-98 | any direction text other than "buy" is booked as an FX_SELL, debiting ARS and crediting USD |
| FxScript.ComputeUsdPosition | fx_example.py:101-110 | the USD position is debit minus credit on 1020 in USD, 0 with no lines, and an error only when 1020 is missing |
| FxScript.UsdPositionOrderFree | fx_example.py:101-110 | the USD position depends only on the multiset of journal lines |
| FxScript.InsertMovesUsdPosition | fx_example.py:75-98 | each insert moves the USD position by the amount, up for "buy" and down otherwise |
| FxScript.InsertAllMovesUsdPosition | fx_example.py:113-133 | a run of inserts on a catalog with the FX codes succeeds and moves the USD position by the signed sum of its amounts |
| FxScript.Classify | fx_example.py:137-142 | a negative position is short by its absolute value, a positive one long, and zero neutral |
| Scenarios.FxBuyScenario | test_api.py:38-57 | buying 100 USD at 1400 gives a USD position of 100 and an ARS balance of -140000 |
| Scenarios.PaymentStep | test_payments_receipts.py:24-41 | paying 1000 to a supplier at 10% with 50 expenses costs 1150, booked as four lines |
| Scenarios.ReceiptStep | test_payments_receipts.py:43-59 | receiving 2000 from a client at 5% nets 1900, booked as three lines |
| Scenarios.PaymentReceiptScenario | test_payments_receipts.py:24-63 | paying 1000 at 10% with 50 expenses costs 1150, receiving 2000 at 5% nets 1900, and ARS cash ends at 750 |
| Scenarios.ChequeInterestScenario | test_cheque_buy.py:36-48 | 10000 at 10% for 30 days on base 365 earns 82.19 of interest |
| Scenarios.ChequeStep | test_cheque_buy.py:24-49 | buying that cheque answers interest 82.19, commissions 200, expenses 50 and net 9667.81, and files one pending cheque |
| Scenarios.ChequeBuyScenario | test_cheque_buy.py:24-53 | a 10000 cheque at 10% for 30 days on base 365 with 200 commission and 50 expenses gives interest 82.19, net 9667.81 and one pending cheque |
| Scenarios.UnknownChequeScenario | test_client_ledger.py:60-61 | a status update on a cheque id 999 that does not exist is ChequeNotFound and changes nothing |
| Scenarios.SampleRunScenario | fx_example.py:113-142 | the loader's two-day sample ends with a USD position of -348, reported as short 348 |

## Left out

- Authentication, sessions and password hashing (login, the token store,
  the current-user dependency): opaque hashing and process-wide mutable
  state. The acting user is a parameter (`actor`); the e-mail → user id
  subquery is not modelled. The loader script uses user 1.
- The HTTP layer and request parsing. Requests arrive as typed values.
  Missing optional amounts are `None`, and absent and zero amounts are both
  treated as 0, as `or 0` does.
- SQL, connections, `commit` and transaction atomicity. The model has no
  concurrency. A request whose later lookup fails leaves only the new
  party behind, as the separate party commit does.
- Plain party create/list endpoints: trivial inserts and selects. Scenarios
  that need an existing party start from a store that holds it.
- Seeding and bootstrap scripts. Only their codes are used, as
  `Ledger.Seeded`.
- Binary floating point. Amounts are integer cents and rounding is an
  explicit half-away-from-zero function. Python's `round` on floats (ties
  to even, on binary approximations) is not reproduced.
- Time of day. Dates are whole day numbers. The client ledger orders by
  (day, line id), while the SQL orders by the full timestamp first.
- Malformed date strings in the ledger's range filter. Range bounds are
  day numbers. An absent bound is `None`, which is how an empty string
  behaves too.
- NULL debit or credit cells. The engine always writes both columns, so
  lines carry plain integers. The ledger's `or 0` and SQL's NULL-skipping
  `SUM` are then the identity.
- Reports.GetPosition: the currency subquery for USD or ARS is assumed to
  find its row. With the currency missing, no line could have been posted
  in it anyway.
- FxScript.InsertFxOperation: a missing FX operation type fails in the
  script with a TypeError on `None[0]`. It is modelled as the same NotFound
  error as the other lookups.
- ChequeBook.ListCheques: answers a map from cheque id to the whole cheque
  record. The source returns a list of eight projected columns in row
  order; the projection and the order carry no logic.
- The loader's printed output. `Classify` models the choice between short,
  long and neutral, not the text.
