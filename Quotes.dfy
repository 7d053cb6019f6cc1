/**
 * The quotes page: saving and deleting quotes, and the quote-to-payment
 * linkage that keeps the payment derived from an approved quote in step
 * with it.
 */
module Quotes {
  import opened Rows
  import opened Lists
  import opened Store

  /** The quote form (`quoteSchema`), with the value in cents. */
  datatype QuoteForm = QuoteForm(clientId: string, service: string, value: Cents, status: QuoteStatus)

  /**
   * `quoteSchema`: a client is chosen, the service has at least two
   * characters and the value is at least 0.01. The status is one of the
   * three enumeration values by construction.
   */
  predicate ValidQuoteForm(f: QuoteForm)
  {
    |f.clientId| >= 1 && |f.service| >= 2 && f.value >= 1
  }

  /** The quote fields the linkage copies into its payment. */
  datatype QuoteSnapshot = QuoteSnapshot(id: Id, clientId: Id, clientName: string, service: string, value: Cents)

  // ---------------------------------------------------------------------------
  // The linkage, as functions of the payments table

  /** The payment belongs to `user` and points at quote `quoteId`. */
  predicate LinkedTo(p: Payment, user: Id, quoteId: Id)
  {
    p.quoteId == Some(quoteId) && p.userId == user
  }

  /** The ids of `user`'s payments that point at quote `quoteId`. */
  ghost function LinkedKeys(ps: map<Id, Payment>, user: Id, quoteId: Id): set<Id>
  {
    set k | k in ps && LinkedTo(ps[k], user, quoteId)
  }

  /** The lookup `payments where quote_id = quoteId and user_id = user limit 1` finds a row. */
  predicate HasLinked(ps: map<Id, Payment>, user: Id, quoteId: Id)
  {
    exists k | k in ps :: LinkedTo(ps[k], user, quoteId)
  }

  /** At most one of `user`'s payments points at quote `quoteId`. */
  ghost predicate AtMostOneLinked(ps: map<Id, Payment>, user: Id, quoteId: Id)
  {
    forall j, k :: j in ps && k in ps && LinkedTo(ps[j], user, quoteId) && LinkedTo(ps[k], user, quoteId) ==> j == k
  }

  /** The pending payment inserted for a quote that has none yet. */
  function NewPendingPayment(id: Id, user: Id, q: QuoteSnapshot): Payment
  {
    Payment(id, user, Some(q.id), Some(q.clientId), q.clientName, q.service, q.value, Pending, None, None)
  }

  /** The update that re-syncs a linked payment: client, service and value only. */
  function Resynced(p: Payment, q: QuoteSnapshot): Payment
  {
    p.(clientId := Some(q.clientId), clientName := q.clientName, service := q.service, value := q.value)
  }

  /** The bulk update of every payment of `user` linked to the quote. */
  function ResyncLinked(ps: map<Id, Payment>, user: Id, q: QuoteSnapshot): map<Id, Payment>
  {
    map k | k in ps :: if LinkedTo(ps[k], user, q.id) then Resynced(ps[k], q) else ps[k]
  }

  /**
   * `ensurePaymentForQuote`: insert one pending payment when the lookup
   * finds none, otherwise re-sync every linked payment.
   */
  function EnsurePayment(ps: map<Id, Payment>, user: Id, q: QuoteSnapshot, newId: Id): map<Id, Payment>
  {
    if HasLinked(ps, user, q.id) then ResyncLinked(ps, user, q)
    else ps[newId := NewPendingPayment(newId, user, q)]
  }

  /** The bulk update `quote_id = null` on every payment of `user` linked to the quote. */
  function UnlinkQuote(ps: map<Id, Payment>, user: Id, quoteId: Id): map<Id, Payment>
  {
    map k | k in ps :: if LinkedTo(ps[k], user, quoteId) then ps[k].(quoteId := None) else ps[k]
  }

  // ---------------------------------------------------------------------------
  // Properties of the linkage

  /** With no linked payment, exactly one new pending payment is inserted and nothing else changes. */
  lemma EnsureInsertsOnePending(ps: map<Id, Payment>, user: Id, q: QuoteSnapshot, newId: Id)
    requires !HasLinked(ps, user, q.id)
    requires newId !in ps
    ensures var r := EnsurePayment(ps, user, q, newId);
      && r.Keys == ps.Keys + {newId}
      && |r| == |ps| + 1
      && (forall k :: k in ps ==> r[k] == ps[k])
      && r[newId].status == Pending && r[newId].paymentMethod == None && r[newId].paidAt == None
      && r[newId].quoteId == Some(q.id) && r[newId].userId == user
      && r[newId].clientId == Some(q.clientId) && r[newId].clientName == q.clientName
      && r[newId].service == q.service && r[newId].value == q.value
      && LinkedKeys(r, user, q.id) == {newId}
  {
    var r := EnsurePayment(ps, user, q, newId);
    assert r == ps[newId := NewPendingPayment(newId, user, q)];
    assert LinkedKeys(r, user, q.id) == {newId} by {
      forall k | k in LinkedKeys(r, user, q.id) ensures k == newId {
      }
    }
  }

  /**
   * With linked payments, no row is added or removed; every linked payment
   * takes client, service and value from the quote and keeps its status,
   * method and paid time; every other payment is unchanged.
   */
  lemma EnsureResyncsLinked(ps: map<Id, Payment>, user: Id, q: QuoteSnapshot, newId: Id)
    requires HasLinked(ps, user, q.id)
    ensures var r := EnsurePayment(ps, user, q, newId);
      && r.Keys == ps.Keys
      && (forall k :: k in ps && LinkedTo(ps[k], user, q.id) ==>
            && r[k].clientId == Some(q.clientId) && r[k].clientName == q.clientName
            && r[k].service == q.service && r[k].value == q.value
            && r[k].id == ps[k].id && r[k].userId == ps[k].userId && r[k].quoteId == ps[k].quoteId
            && r[k].status == ps[k].status && r[k].paymentMethod == ps[k].paymentMethod
            && r[k].paidAt == ps[k].paidAt)
      && (forall k :: k in ps && !LinkedTo(ps[k], user, q.id) ==> r[k] == ps[k])
      && LinkedKeys(r, user, q.id) == LinkedKeys(ps, user, q.id)
  {
  }

  /** A second call with the same quote leaves the table as the first call left it. */
  lemma EnsureIdempotent(ps: map<Id, Payment>, user: Id, q: QuoteSnapshot, newId1: Id, newId2: Id)
    ensures EnsurePayment(EnsurePayment(ps, user, q, newId1), user, q, newId2) == EnsurePayment(ps, user, q, newId1)
  {
    var once := EnsurePayment(ps, user, q, newId1);
    if !HasLinked(ps, user, q.id) {
      assert newId1 in once && LinkedTo(once[newId1], user, q.id);
    } else {
      var k :| k in ps && LinkedTo(ps[k], user, q.id);
      assert k in once && LinkedTo(once[k], user, q.id);
    }
    assert HasLinked(once, user, q.id);
    var twice := ResyncLinked(once, user, q);
    assert twice.Keys == once.Keys;
    forall k | k in once ensures twice[k] == once[k] {
      if LinkedTo(once[k], user, q.id) {
        if HasLinked(ps, user, q.id) {
          assert k in ps;
          assert LinkedTo(ps[k], user, q.id);
        }
      }
    }
  }

  /**
   * The linkage never makes a quote's payment ambiguous: for every user and
   * quote, at most one linked payment before the call means at most one
   * after it.
   */
  lemma EnsurePreservesAtMostOne(ps: map<Id, Payment>, user: Id, q: QuoteSnapshot, newId: Id, u: Id, quoteId: Id)
    requires newId !in ps
    requires AtMostOneLinked(ps, u, quoteId)
    ensures AtMostOneLinked(EnsurePayment(ps, user, q, newId), u, quoteId)
  {
    var r := EnsurePayment(ps, user, q, newId);
    if HasLinked(ps, user, q.id) {
      forall k | k in ps ensures LinkedTo(r[k], u, quoteId) == LinkedTo(ps[k], u, quoteId) {
      }
    } else {
      forall j, k | j in r && k in r && LinkedTo(r[j], u, quoteId) && LinkedTo(r[k], u, quoteId)
        ensures j == k
      {
      }
    }
  }

  /** From at most one linked payment, the call leaves exactly one. */
  lemma EnsureLeavesExactlyOne(ps: map<Id, Payment>, user: Id, q: QuoteSnapshot, newId: Id)
    requires newId !in ps
    requires AtMostOneLinked(ps, user, q.id)
    ensures exists k :: LinkedKeys(EnsurePayment(ps, user, q, newId), user, q.id) == {k}
  {
    var r := EnsurePayment(ps, user, q, newId);
    if HasLinked(ps, user, q.id) {
      var k :| k in ps && LinkedTo(ps[k], user, q.id);
      EnsureResyncsLinked(ps, user, q, newId);
      assert LinkedKeys(r, user, q.id) == {k};
    } else {
      EnsureInsertsOnePending(ps, user, q, newId);
    }
  }

  /** The linkage keeps the payment status rule on every row. */
  lemma EnsurePreservesPaidConsistent(ps: map<Id, Payment>, user: Id, q: QuoteSnapshot, newId: Id)
    requires AllPaidConsistent(ps)
    ensures AllPaidConsistent(EnsurePayment(ps, user, q, newId))
  {
  }

  /** The inserted payment carries the id it is stored under. */
  lemma EnsurePreservesKeyed(ps: map<Id, Payment>, user: Id, q: QuoteSnapshot, newId: Id)
    requires PaymentsKeyed(ps)
    ensures PaymentsKeyed(EnsurePayment(ps, user, q, newId))
  {
  }

  /**
   * Unlinking deletes no payment, leaves none of `user`'s payments pointing
   * at the quote, clears only `quote_id` on the ones that did, and leaves
   * the others as they were.
   */
  lemma UnlinkKeepsPayments(ps: map<Id, Payment>, user: Id, quoteId: Id)
    ensures var r := UnlinkQuote(ps, user, quoteId);
      && r.Keys == ps.Keys
      && !HasLinked(r, user, quoteId)
      && (forall k :: k in ps && LinkedTo(ps[k], user, quoteId) ==> r[k] == ps[k].(quoteId := None))
      && (forall k :: k in ps && !LinkedTo(ps[k], user, quoteId) ==> r[k] == ps[k])
      && (AllPaidConsistent(ps) ==> AllPaidConsistent(r))
  {
  }

  // ---------------------------------------------------------------------------
  // Writes to the quotes table

  /** The row `createQuote` inserts. */
  function QuoteFromForm(id: Id, user: Id, clientName: string, f: QuoteForm): Quote
  {
    Quote(id, user, Some(f.clientId), clientName, f.service, f.value, f.status)
  }

  /** The update `updateQuote` applies to the row with that id and user, if there is one. */
  function UpdateQuoteRow(qs: map<Id, Quote>, user: Id, id: Id, clientName: string, f: QuoteForm): map<Id, Quote>
  {
    if id in qs && qs[id].userId == user then
      qs[id := qs[id].(clientId := Some(f.clientId), clientName := clientName, service := f.service,
                       value := f.value, status := f.status)]
    else qs
  }

  /** The delete of the row with that id and user, if there is one. */
  function DeleteQuoteRow(qs: map<Id, Quote>, user: Id, id: Id): map<Id, Quote>
  {
    if id in qs && qs[id].userId == user then qs - {id} else qs
  }

  /** The snapshot a save passes to the linkage. */
  function SnapshotOf(id: Id, clientName: string, f: QuoteForm): QuoteSnapshot
  {
    QuoteSnapshot(id, f.clientId, clientName, f.service, f.value)
  }

  /**
   * A quote saved from a valid form, and the payment the linkage derives
   * from it, both name the chosen client and carry its service and a value
   * of at least one cent.
   */
  lemma ValidQuoteFormRows(id: Id, paymentId: Id, user: Id, clientName: string, f: QuoteForm)
    requires ValidQuoteForm(f)
    ensures var row := QuoteFromForm(id, user, clientName, f);
      && row.value >= 1 && |row.service| >= 2 && row.clientId == Some(f.clientId) && |f.clientId| >= 1
      && row.clientName == clientName
    ensures var p := NewPendingPayment(paymentId, user, SnapshotOf(id, clientName, f));
      && p.value == f.value && p.value >= 1 && p.service == f.service
      && p.clientId == Some(f.clientId) && p.clientName == clientName && p.quoteId == Some(id)
      && PaidConsistent(p)
  {
  }

  /** Updating a quote changes at most the row with that id, and keeps its id and owner. */
  lemma UpdateQuoteRowOnlyThatRow(qs: map<Id, Quote>, user: Id, id: Id, clientName: string, f: QuoteForm)
    requires QuotesKeyed(qs)
    ensures var r := UpdateQuoteRow(qs, user, id, clientName, f);
      && r.Keys == qs.Keys
      && QuotesKeyed(r)
      && (forall k :: k in qs && k != id ==> r[k] == qs[k])
      && (id in qs && qs[id].userId == user ==>
            r[id] == QuoteFromForm(id, user, clientName, f))
      && (id in qs && qs[id].userId != user ==> r[id] == qs[id])
  {
  }

  /** Deleting a quote removes only that row, and only when it belongs to the user. */
  lemma DeleteQuoteRowOnlyThatRow(qs: map<Id, Quote>, user: Id, id: Id)
    ensures var r := DeleteQuoteRow(qs, user, id);
      && (id in qs && qs[id].userId == user ==> r.Keys == qs.Keys - {id})
      && (!(id in qs && qs[id].userId == user) ==> r == qs)
      && (forall k :: k in r ==> k in qs && r[k] == qs[k])
  {
  }

  // ---------------------------------------------------------------------------
  // The page's mutations

  /** `ensurePaymentForQuote`. */
  method EnsurePaymentForQuote(db: Database, user: Option<Id>, q: QuoteSnapshot, newId: Id) returns (r: Outcome)
    requires db.Valid()
    requires newId !in db.payments
    modifies db`payments
    ensures db.Valid()
    ensures user.None? ==> r == Err(NotAuthenticated) && db.payments == old(db.payments)
    ensures user.Some? ==> r == Ok && db.payments == EnsurePayment(old(db.payments), user.value, q, newId)
    ensures AllPaidConsistent(old(db.payments)) ==> AllPaidConsistent(db.payments)
  {
    if user.None? {
      return Err(NotAuthenticated);
    }
    if AllPaidConsistent(db.payments) {
      EnsurePreservesPaidConsistent(db.payments, user.value, q, newId);
    }
    var existing := HasLinked(db.payments, user.value, q.id);
    if !existing {
      db.payments := db.payments[newId := NewPendingPayment(newId, user.value, q)];
    } else {
      db.payments := ResyncLinked(db.payments, user.value, q);
    }
    r := Ok;
  }

  /**
   * `createQuote`: look the client up, insert the quote, and run the
   * linkage only when the quote is saved as approved.
   */
  method CreateQuote(db: Database, user: Option<Id>, clients: seq<ClientRow>, f: QuoteForm,
                     newQuoteId: Id, newPaymentId: Id) returns (r: Outcome)
    requires db.Valid()
    requires newQuoteId !in db.quotes && newPaymentId !in db.payments
    modifies db`quotes, db`payments
    ensures db.Valid()
    ensures user.None? ==> r == Err(NotAuthenticated)
    ensures user.Some? && FindClient(clients, f.clientId).None? ==> r == Err(InvalidClient)
    ensures r.Err? ==> db.quotes == old(db.quotes) && db.payments == old(db.payments)
    ensures user.Some? && FindClient(clients, f.clientId).Some? ==>
      var name := FindClient(clients, f.clientId).value.name;
      && r == Ok
      && db.quotes == old(db.quotes)[newQuoteId := QuoteFromForm(newQuoteId, user.value, name, f)]
      && db.payments == if f.status == Approved
                        then EnsurePayment(old(db.payments), user.value, SnapshotOf(newQuoteId, name, f), newPaymentId)
                        else old(db.payments)
    ensures AllPaidConsistent(old(db.payments)) ==> AllPaidConsistent(db.payments)
  {
    if user.None? {
      return Err(NotAuthenticated);
    }
    var client := FindClient(clients, f.clientId);
    if client.None? {
      return Err(InvalidClient);
    }
    var name := client.value.name;
    db.quotes := db.quotes[newQuoteId := QuoteFromForm(newQuoteId, user.value, name, f)];
    r := Ok;
    if f.status == Approved {
      r := EnsurePaymentForQuote(db, user, SnapshotOf(newQuoteId, name, f), newPaymentId);
    }
  }

  /**
   * `updateQuote`: look the client up, update the quote row, and run the
   * linkage only when the quote is saved as approved.
   */
  method UpdateQuote(db: Database, user: Option<Id>, clients: seq<ClientRow>, id: Id, f: QuoteForm,
                     newPaymentId: Id) returns (r: Outcome)
    requires db.Valid()
    requires newPaymentId !in db.payments
    modifies db`quotes, db`payments
    ensures db.Valid()
    ensures user.None? ==> r == Err(NotAuthenticated)
    ensures user.Some? && FindClient(clients, f.clientId).None? ==> r == Err(InvalidClient)
    ensures r.Err? ==> db.quotes == old(db.quotes) && db.payments == old(db.payments)
    ensures user.Some? && FindClient(clients, f.clientId).Some? ==>
      var name := FindClient(clients, f.clientId).value.name;
      && r == Ok
      && db.quotes == UpdateQuoteRow(old(db.quotes), user.value, id, name, f)
      && db.payments == if f.status == Approved
                        then EnsurePayment(old(db.payments), user.value, SnapshotOf(id, name, f), newPaymentId)
                        else old(db.payments)
    ensures AllPaidConsistent(old(db.payments)) ==> AllPaidConsistent(db.payments)
  {
    if user.None? {
      return Err(NotAuthenticated);
    }
    var client := FindClient(clients, f.clientId);
    if client.None? {
      return Err(InvalidClient);
    }
    var name := client.value.name;
    UpdateQuoteRowOnlyThatRow(db.quotes, user.value, id, name, f);
    db.quotes := UpdateQuoteRow(db.quotes, user.value, id, name, f);
    r := Ok;
    if f.status == Approved {
      r := EnsurePaymentForQuote(db, user, SnapshotOf(id, name, f), newPaymentId);
    }
  }

  /** `deleteQuote`: first unlink the quote's payments, then delete the quote row. */
  method DeleteQuote(db: Database, user: Option<Id>, id: Id) returns (r: Outcome)
    requires db.Valid()
    modifies db`quotes, db`payments
    ensures db.Valid()
    ensures user.None? ==> r == Err(NotAuthenticated) && db.quotes == old(db.quotes) && db.payments == old(db.payments)
    ensures user.Some? ==>
      && r == Ok
      && db.payments == UnlinkQuote(old(db.payments), user.value, id)
      && db.quotes == DeleteQuoteRow(old(db.quotes), user.value, id)
    ensures AllPaidConsistent(old(db.payments)) ==> AllPaidConsistent(db.payments)
  {
    if user.None? {
      return Err(NotAuthenticated);
    }
    UnlinkKeepsPayments(db.payments, user.value, id);
    db.payments := UnlinkQuote(db.payments, user.value, id);
    db.quotes := DeleteQuoteRow(db.quotes, user.value, id);
    r := Ok;
  }

  // ---------------------------------------------------------------------------
  // The quote list

  /** The search test of `filteredQuotes`: client name or service contains the search. */
  function QuoteMatches(search: string, fold: string -> string): Quote -> bool
  {
    (q: Quote) => SearchHit(q.clientName, search, fold) || SearchHit(q.service, search, fold)
  }

  /** `filteredQuotes`. */
  function FilteredQuotes(quotes: seq<Quote>, search: string, fold: string -> string): seq<Quote>
  {
    Filter(quotes, QuoteMatches(search, fold))
  }

  /**
   * The filtered quotes are, in their original order, exactly the quotes
   * whose client name or service contains the search.
   */
  lemma FilteredQuotesSpec(quotes: seq<Quote>, search: string, fold: string -> string, x: Quote)
    ensures x in FilteredQuotes(quotes, search, fold) <==>
      x in quotes && (SearchHit(x.clientName, search, fold) || SearchHit(x.service, search, fold))
    ensures IsSubsequence(FilteredQuotes(quotes, search, fold), quotes)
    ensures multiset(FilteredQuotes(quotes, search, fold))[x] ==
      if SearchHit(x.clientName, search, fold) || SearchHit(x.service, search, fold)
      then multiset(quotes)[x] else 0
  {
    FilterIsSubsequence(quotes, QuoteMatches(search, fold));
    FilterMultiplicity(quotes, QuoteMatches(search, fold), x);
  }

  /** An empty search keeps every quote. */
  lemma FilteredQuotesEmptySearch(quotes: seq<Quote>, fold: string -> string)
    requires fold("") == ""
    ensures FilteredQuotes(quotes, "", fold) == quotes
  {
    forall x | x in quotes ensures QuoteMatches("", fold)(x) {
      EmptySearchHits(x.clientName, fold);
    }
    FilterKeepsAll(quotes, QuoteMatches("", fold));
  }
}
