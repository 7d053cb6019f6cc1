/**
 * The payments page: the payment form's rules, the writes it makes to the
 * payments table, and the lists it shows.
 */
module Payments {
  import opened Rows
  import opened Lists
  import opened Store
  import opened Quotes

  /** The payment form (`paymentSchema`), with the value in cents. */
  datatype PaymentForm = PaymentForm(
    clientId: string,
    quoteId: Option<string>,
    service: string,
    value: Cents,
    status: PaymentStatus,
    paymentMethod: Option<PaymentMethod>)

  /**
   * `paymentSchema` with its refinement: a client is chosen, the service
   * has at least two characters, the value is at least 0.01, and a paid
   * payment names its method.
   */
  predicate ValidPaymentForm(f: PaymentForm)
  {
    && |f.clientId| >= 1
    && |f.service| >= 2
    && f.value >= 1
    && (f.status == Paid ==> f.paymentMethod.Some?)
  }

  /** `values.quote_id || null`: an absent or empty quote id is stored as null. */
  function QuoteIdColumn(quoteId: Option<string>): Option<Id>
  {
    if quoteId == Some("") then None else quoteId
  }

  /** The columns `createPayment` and `updatePayment` write from the form; `now` is the save time. */
  function PaymentFromForm(id: Id, user: Id, clientName: string, f: PaymentForm, now: Time): Payment
  {
    Payment(id, user, QuoteIdColumn(f.quoteId), Some(f.clientId), clientName, f.service, f.value, f.status,
            if f.status == Paid then f.paymentMethod else None,
            if f.status == Paid then Some(now) else None)
  }

  /** The update `updatePayment` applies to the row with that id and user, if there is one. */
  function UpdatePaymentRow(ps: map<Id, Payment>, user: Id, id: Id, clientName: string, f: PaymentForm, now: Time)
    : map<Id, Payment>
  {
    if id in ps && ps[id].userId == user then ps[id := PaymentFromForm(id, user, clientName, f, now)] else ps
  }

  /** The update `markAsPaid` applies to the row with that id and user, if there is one. */
  function MarkPaid(ps: map<Id, Payment>, user: Id, id: Id, chosen: PaymentMethod, now: Time): map<Id, Payment>
  {
    if id in ps && ps[id].userId == user
    then ps[id := ps[id].(status := Paid, paymentMethod := Some(chosen), paidAt := Some(now))]
    else ps
  }

  /** The delete of the row with that id and user, if there is one. */
  function DeletePaymentRow(ps: map<Id, Payment>, user: Id, id: Id): map<Id, Payment>
  {
    if id in ps && ps[id].userId == user then ps - {id} else ps
  }

  // ---------------------------------------------------------------------------
  // Properties of the form and the writes

  /** An empty quote id from the form is stored as null; a non-empty one is kept. */
  lemma QuoteIdColumnSpec(quoteId: Option<string>)
    ensures QuoteIdColumn(quoteId).None? <==> (quoteId == None || quoteId == Some(""))
    ensures QuoteIdColumn(quoteId).Some? ==> QuoteIdColumn(quoteId) == quoteId && quoteId.value != ""
  {
  }

  /**
   * What a save writes: the method only when paid, the paid time exactly
   * when paid (re-stamped with the save time on every save), the looked-up
   * client name, the quote id with an empty one stored as null, and the
   * form's other fields.
   */
  lemma PaymentFromFormSpec(id: Id, user: Id, clientName: string, f: PaymentForm, now: Time)
    ensures var p := PaymentFromForm(id, user, clientName, f, now);
      && (p.paidAt.Some? <==> f.status == Paid)
      && (f.status == Paid ==> p.paidAt == Some(now) && p.paymentMethod == f.paymentMethod)
      && (f.status == Pending ==> p.paymentMethod == None && p.paidAt == None)
      && p.status == f.status && p.clientName == clientName && p.clientId == Some(f.clientId)
      && p.service == f.service && p.value == f.value && p.id == id && p.userId == user
      && p.quoteId == QuoteIdColumn(f.quoteId)
  {
  }

  /**
   * The form rules are what keep the payment status rule: a saved valid
   * form always gives a payment that is paid exactly when it has a method
   * and a paid time.
   */
  lemma ValidFormGivesPaidConsistent(id: Id, user: Id, clientName: string, f: PaymentForm, now: Time)
    requires ValidPaymentForm(f)
    ensures PaidConsistent(PaymentFromForm(id, user, clientName, f, now))
  {
  }

  /** Without the refinement the rule breaks: paid with no method stores a paid payment with no method. */
  lemma PaidWithoutMethodIsInconsistent(id: Id, user: Id, clientName: string, f: PaymentForm, now: Time)
    requires f.status == Paid && f.paymentMethod == None
    ensures !ValidPaymentForm(f)
    ensures !PaidConsistent(PaymentFromForm(id, user, clientName, f, now))
  {
  }

  /** Updating from a valid form keeps the status rule on every row and changes at most that row. */
  lemma UpdatePaymentRowSpec(ps: map<Id, Payment>, user: Id, id: Id, clientName: string, f: PaymentForm, now: Time)
    requires PaymentsKeyed(ps)
    ensures var r := UpdatePaymentRow(ps, user, id, clientName, f, now);
      && r.Keys == ps.Keys
      && PaymentsKeyed(r)
      && (forall k :: k in ps && k != id ==> r[k] == ps[k])
      && (id in ps && ps[id].userId == user ==> r[id] == PaymentFromForm(id, user, clientName, f, now))
      && (id in ps && ps[id].userId != user ==> r[id] == ps[id])
      && (AllPaidConsistent(ps) && ValidPaymentForm(f) ==> AllPaidConsistent(r))
  {
    if AllPaidConsistent(ps) && ValidPaymentForm(f) {
      ValidFormGivesPaidConsistent(id, user, clientName, f, now);
    }
  }

  /**
   * `markAsPaid` sets status, method and paid time on that one row; every
   * other field and every other row is unchanged, and the status rule is
   * kept.
   */
  lemma MarkPaidOnlyThatRow(ps: map<Id, Payment>, user: Id, id: Id, chosen: PaymentMethod, now: Time)
    requires PaymentsKeyed(ps)
    ensures var r := MarkPaid(ps, user, id, chosen, now);
      && r.Keys == ps.Keys
      && PaymentsKeyed(r)
      && (forall k :: k in ps && k != id ==> r[k] == ps[k])
      && (id in ps && ps[id].userId == user ==>
            && r[id].status == Paid && r[id].paymentMethod == Some(chosen) && r[id].paidAt == Some(now)
            && r[id].id == ps[id].id && r[id].userId == ps[id].userId && r[id].quoteId == ps[id].quoteId
            && r[id].clientId == ps[id].clientId && r[id].clientName == ps[id].clientName
            && r[id].service == ps[id].service && r[id].value == ps[id].value)
      && (id in ps && ps[id].userId != user ==> r[id] == ps[id])
      && (AllPaidConsistent(ps) ==> AllPaidConsistent(r))
  {
  }

  /** Deleting a payment removes only that row, and only when it belongs to the user. */
  lemma DeletePaymentRowOnlyThatRow(ps: map<Id, Payment>, user: Id, id: Id)
    ensures var r := DeletePaymentRow(ps, user, id);
      && (id in ps && ps[id].userId == user ==> r.Keys == ps.Keys - {id})
      && (!(id in ps && ps[id].userId == user) ==> r == ps)
      && (forall k :: k in r ==> k in ps && r[k] == ps[k])
  {
  }

  /**
   * The payment form does not keep a quote to one payment: attaching a quote
   * that already has a linked payment leaves two payments linked to it.
   */
  lemma CreateCanDuplicateLink(ps: map<Id, Payment>, user: Id, clientName: string, f: PaymentForm,
                               newId: Id, now: Time, quoteId: Id)
    requires newId !in ps
    requires HasLinked(ps, user, quoteId)
    requires f.quoteId == Some(quoteId) && quoteId != ""
    ensures !AtMostOneLinked(ps[newId := PaymentFromForm(newId, user, clientName, f, now)], user, quoteId)
  {
    var k :| k in ps && LinkedTo(ps[k], user, quoteId);
    var r := ps[newId := PaymentFromForm(newId, user, clientName, f, now)];
    assert k in r && LinkedTo(r[k], user, quoteId);
    assert newId in r && LinkedTo(r[newId], user, quoteId);
    assert k != newId;
  }

  // ---------------------------------------------------------------------------
  // The page's mutations

  /** `createPayment`: look the client up and insert the payment. */
  method CreatePayment(db: Database, user: Option<Id>, clients: seq<ClientRow>, f: PaymentForm,
                       newId: Id, now: Time) returns (r: Outcome)
    requires db.Valid()
    requires newId !in db.payments
    modifies db`payments
    ensures db.Valid()
    ensures user.None? ==> r == Err(NotAuthenticated)
    ensures user.Some? && FindClient(clients, f.clientId).None? ==> r == Err(InvalidClient)
    ensures r.Err? ==> db.payments == old(db.payments)
    ensures user.Some? && FindClient(clients, f.clientId).Some? ==>
      && r == Ok
      && db.payments == old(db.payments)[newId :=
           PaymentFromForm(newId, user.value, FindClient(clients, f.clientId).value.name, f, now)]
    ensures ValidPaymentForm(f) && AllPaidConsistent(old(db.payments)) ==> AllPaidConsistent(db.payments)
  {
    if user.None? {
      return Err(NotAuthenticated);
    }
    var client := FindClient(clients, f.clientId);
    if client.None? {
      return Err(InvalidClient);
    }
    if ValidPaymentForm(f) {
      ValidFormGivesPaidConsistent(newId, user.value, client.value.name, f, now);
    }
    db.payments := db.payments[newId := PaymentFromForm(newId, user.value, client.value.name, f, now)];
    r := Ok;
  }

  /** `updatePayment`: look the client up and rewrite the payment row with that id. */
  method UpdatePayment(db: Database, user: Option<Id>, clients: seq<ClientRow>, id: Id, f: PaymentForm,
                       now: Time) returns (r: Outcome)
    requires db.Valid()
    modifies db`payments
    ensures db.Valid()
    ensures user.None? ==> r == Err(NotAuthenticated)
    ensures user.Some? && FindClient(clients, f.clientId).None? ==> r == Err(InvalidClient)
    ensures r.Err? ==> db.payments == old(db.payments)
    ensures user.Some? && FindClient(clients, f.clientId).Some? ==>
      && r == Ok
      && db.payments == UpdatePaymentRow(old(db.payments), user.value, id,
                                         FindClient(clients, f.clientId).value.name, f, now)
    ensures ValidPaymentForm(f) && AllPaidConsistent(old(db.payments)) ==> AllPaidConsistent(db.payments)
  {
    if user.None? {
      return Err(NotAuthenticated);
    }
    var client := FindClient(clients, f.clientId);
    if client.None? {
      return Err(InvalidClient);
    }
    UpdatePaymentRowSpec(db.payments, user.value, id, client.value.name, f, now);
    db.payments := UpdatePaymentRow(db.payments, user.value, id, client.value.name, f, now);
    r := Ok;
  }

  /** `deletePayment`. */
  method DeletePayment(db: Database, user: Option<Id>, id: Id) returns (r: Outcome)
    requires db.Valid()
    modifies db`payments
    ensures db.Valid()
    ensures user.None? ==> r == Err(NotAuthenticated) && db.payments == old(db.payments)
    ensures user.Some? ==> r == Ok && db.payments == DeletePaymentRow(old(db.payments), user.value, id)
    ensures AllPaidConsistent(old(db.payments)) ==> AllPaidConsistent(db.payments)
  {
    if user.None? {
      return Err(NotAuthenticated);
    }
    db.payments := DeletePaymentRow(db.payments, user.value, id);
    r := Ok;
  }

  /** `markAsPaid`, with the method chosen in the confirmation dialog. */
  method MarkAsPaid(db: Database, user: Option<Id>, id: Id, chosen: PaymentMethod, now: Time) returns (r: Outcome)
    requires db.Valid()
    modifies db`payments
    ensures db.Valid()
    ensures user.None? ==> r == Err(NotAuthenticated) && db.payments == old(db.payments)
    ensures user.Some? ==> r == Ok && db.payments == MarkPaid(old(db.payments), user.value, id, chosen, now)
    ensures AllPaidConsistent(old(db.payments)) ==> AllPaidConsistent(db.payments)
  {
    if user.None? {
      return Err(NotAuthenticated);
    }
    MarkPaidOnlyThatRow(db.payments, user.value, id, chosen, now);
    db.payments := MarkPaid(db.payments, user.value, id, chosen, now);
    r := Ok;
  }

  // ---------------------------------------------------------------------------
  // The page's lists

  /** The search test of `filteredPayments`: client name or service contains the search. */
  function PaymentMatches(search: string, fold: string -> string): Payment -> bool
  {
    (p: Payment) => SearchHit(p.clientName, search, fold) || SearchHit(p.service, search, fold)
  }

  /** `filteredPayments`. */
  function FilteredPayments(payments: seq<Payment>, search: string, fold: string -> string): seq<Payment>
  {
    Filter(payments, PaymentMatches(search, fold))
  }

  predicate IsPending(p: Payment) { p.status == Pending }

  predicate IsPaid(p: Payment) { p.status == Paid }

  /** `pendingPayments`. */
  function PendingPayments(filtered: seq<Payment>): seq<Payment>
  {
    Filter(filtered, IsPending)
  }

  /** `paidPayments`. */
  function PaidPayments(filtered: seq<Payment>): seq<Payment>
  {
    Filter(filtered, IsPaid)
  }

  /**
   * The filtered payments are, in their original order, exactly the
   * payments whose client name or service contains the search.
   */
  lemma FilteredPaymentsSpec(payments: seq<Payment>, search: string, fold: string -> string, x: Payment)
    ensures x in FilteredPayments(payments, search, fold) <==>
      x in payments && (SearchHit(x.clientName, search, fold) || SearchHit(x.service, search, fold))
    ensures IsSubsequence(FilteredPayments(payments, search, fold), payments)
    ensures multiset(FilteredPayments(payments, search, fold))[x] ==
      if SearchHit(x.clientName, search, fold) || SearchHit(x.service, search, fold)
      then multiset(payments)[x] else 0
  {
    FilterIsSubsequence(payments, PaymentMatches(search, fold));
    FilterMultiplicity(payments, PaymentMatches(search, fold), x);
  }

  /**
   * The pending and paid lists split the filtered list: each filtered
   * payment is in exactly one of them, every occurrence is accounted for,
   * and both keep the original order.
   */
  lemma PendingPaidPartition(filtered: seq<Payment>)
    ensures forall x :: x in filtered ==> (x in PendingPayments(filtered) <==> x !in PaidPayments(filtered))
    ensures forall x :: x in PendingPayments(filtered) + PaidPayments(filtered) ==> x in filtered
    ensures |PendingPayments(filtered)| + |PaidPayments(filtered)| == |filtered|
    ensures multiset(PendingPayments(filtered)) + multiset(PaidPayments(filtered)) == multiset(filtered)
    ensures IsSubsequence(PendingPayments(filtered), filtered)
    ensures IsSubsequence(PaidPayments(filtered), filtered)
  {
    FilterPartition(filtered, IsPending, IsPaid);
    FilterIsSubsequence(filtered, IsPending);
    FilterIsSubsequence(filtered, IsPaid);
  }

  /** The test of `availableQuotes`: approved, and of the client selected in the form. */
  function QuoteAvailableFor(selectedClientId: string): Quote -> bool
  {
    (q: Quote) => q.status == Approved && q.clientId == Some(selectedClientId)
  }

  /** `availableQuotes`. */
  function AvailableQuotes(quotes: seq<Quote>, selectedClientId: string): seq<Quote>
  {
    Filter(quotes, QuoteAvailableFor(selectedClientId))
  }

  /**
   * The quotes offered are, in their original order, exactly the approved
   * quotes of the selected client; a quote with no client is never offered.
   */
  lemma AvailableQuotesSpec(quotes: seq<Quote>, selectedClientId: string, x: Quote)
    ensures x in AvailableQuotes(quotes, selectedClientId) <==>
      x in quotes && x.status == Approved && x.clientId == Some(selectedClientId)
    ensures x.clientId.None? ==> x !in AvailableQuotes(quotes, selectedClientId)
    ensures IsSubsequence(AvailableQuotes(quotes, selectedClientId), quotes)
    ensures multiset(AvailableQuotes(quotes, selectedClientId))[x] ==
      if x.status == Approved && x.clientId == Some(selectedClientId) then multiset(quotes)[x] else 0
  {
    FilterIsSubsequence(quotes, QuoteAvailableFor(selectedClientId));
    FilterMultiplicity(quotes, QuoteAvailableFor(selectedClientId), x);
  }
}
