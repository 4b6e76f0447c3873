/**
  The cheque lifecycle: status updates on filed cheques and the cheque
  listing. Neither touches the journal.
*/
module ChequeBook {
  import opened Results
  import opened Ledger

  /**
    update_cheque_status: the status text is checked first, then the id;
    on success only that cheque's status changes, and nothing else in the
    store does. Any of the five statuses may replace any other.
  */
  function UpdateChequeStatus(s: Store, id: int, newStatus: string): (r: Reply<()>)
    ensures ParseStatus(newStatus).None? ==> r == Reply(s, Err(InvalidStatus))
    ensures ParseStatus(newStatus).Some? && id !in s.cheques ==> r == Reply(s, Err(ChequeNotFound))
    ensures r.result.Ok? <==> ParseStatus(newStatus).Some? && id in s.cheques
    ensures r.store.catalog == s.catalog && r.store.parties == s.parties
    ensures r.store.operations == s.operations && r.store.journal == s.journal
    ensures r.store.nextCheque == s.nextCheque
    ensures r.store.cheques.Keys == s.cheques.Keys
    ensures forall k :: k in s.cheques && k != id ==> r.store.cheques[k] == s.cheques[k]
    ensures r.result.Ok? ==>
              && StatusName(r.store.cheques[id].status) == newStatus
              && r.store.cheques[id] == s.cheques[id].(status := r.store.cheques[id].status)
  {
    match ParseStatus(newStatus)
    case None => Reply(s, Err(InvalidStatus))
    case Some(status) =>
      if id !in s.cheques then Reply(s, Err(ChequeNotFound))
      else Reply(s.(cheques := s.cheques[id := s.cheques[id].(status := status)]), Ok(()))
  }

  /** A status update keeps the store's invariant. */
  lemma UpdatePreservesValid(s: Store, id: int, newStatus: string)
    requires s.Valid()
    ensures UpdateChequeStatus(s, id, newStatus).store.Valid()
  {
  }

  /**
    list_cheques: every cheque when no status (or an empty one) is given,
    otherwise exactly the cheques whose status reads as the given text.
  */
  function ListCheques(s: Store, status: Option<string>): (r: map<int, Cheque>)
    ensures forall k :: k in r <==>
              k in s.cheques && (status.None? || status.value == "" || StatusName(s.cheques[k].status) == status.value)
    ensures forall k :: k in r ==> r[k] == s.cheques[k]
  {
    if status.None? || status.value == "" then s.cheques
    else map k | k in s.cheques && StatusName(s.cheques[k].status) == status.value :: s.cheques[k]
  }

  /** Filtering by text that is not one of the five statuses lists nothing. */
  lemma ListUnknownStatus(s: Store, status: string)
    requires status != "" && ParseStatus(status).None?
    ensures ListCheques(s, Some(status)) == map[]
  {
  }

  /** After a successful update the cheque is listed under its new status and no other. */
  lemma UpdateThenList(s: Store, id: int, newStatus: string, other: Status)
    requires UpdateChequeStatus(s, id, newStatus).result.Ok?
    ensures id in ListCheques(UpdateChequeStatus(s, id, newStatus).store, Some(newStatus))
    ensures StatusName(other) != newStatus ==>
              id !in ListCheques(UpdateChequeStatus(s, id, newStatus).store, Some(StatusName(other)))
  {
  }
}
