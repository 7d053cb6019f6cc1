/**
 * The backing store as in-memory tables: each table maps a row's id to the
 * row. Every page mutation filters by the signed-in user as well as by id,
 * so the row's `userId` is kept and checked.
 */
module Store {
  import opened Rows

  /** Every key of a table is the id of the row stored under it. */
  ghost predicate QuotesKeyed(m: map<Id, Quote>)
  {
    forall k :: k in m ==> m[k].id == k
  }

  ghost predicate PaymentsKeyed(m: map<Id, Payment>)
  {
    forall k :: k in m ==> m[k].id == k
  }

  ghost predicate AppointmentsKeyed(m: map<Id, Appointment>)
  {
    forall k :: k in m ==> m[k].id == k
  }

  /**
   * The payment status rule: `paid_at` and `payment_method` are both set
   * exactly when the payment is paid.
   */
  predicate PaidConsistent(p: Payment)
  {
    && (p.status == Paid <==> p.paidAt.Some?)
    && (p.status == Paid <==> p.paymentMethod.Some?)
  }

  ghost predicate AllPaidConsistent(ps: map<Id, Payment>)
  {
    forall k :: k in ps ==> PaidConsistent(ps[k])
  }

  /** The quote, payment and appointment tables. */
  class Database {
    var quotes: map<Id, Quote>
    var payments: map<Id, Payment>
    var appointments: map<Id, Appointment>

    ghost predicate Valid()
      reads this
    {
      QuotesKeyed(quotes) && PaymentsKeyed(payments) && AppointmentsKeyed(appointments)
    }

    constructor ()
      ensures Valid()
      ensures quotes == map[] && payments == map[] && appointments == map[]
    {
      quotes, payments, appointments := map[], map[], map[];
    }
  }

  /**
   * `clients.find((c) => c.id === id)`: the first fetched client with that
   * id, or None when there is none.
   */
  function FindClient(clients: seq<ClientRow>, id: Id): (r: Option<ClientRow>)
    ensures r.None? <==> forall i :: 0 <= i < |clients| ==> clients[i].id != id
    ensures r.Some? ==> r.value.id == id
    ensures r.Some? ==>
      exists i :: 0 <= i < |clients| && clients[i] == r.value &&
        forall j :: 0 <= j < i ==> clients[j].id != id
  {
    if clients == [] then None
    else if clients[0].id == id then Some(clients[0])
    else
      var r := FindClient(clients[1..], id);
      if r.Some? then
        var i :| 0 <= i < |clients[1..]| && clients[1..][i] == r.value &&
          forall j :: 0 <= j < i ==> clients[1..][j].id != id;
        assert clients[i + 1] == r.value;
        assert forall j :: 0 <= j < i + 1 ==> clients[j].id != id by {
          forall j | 0 <= j < i + 1 ensures clients[j].id != id {
            if j > 0 { assert clients[j] == clients[1..][j - 1]; }
          }
        }
        r
      else
        assert forall i :: 0 <= i < |clients| ==> clients[i].id != id by {
          forall i | 0 <= i < |clients| ensures clients[i].id != id {
            if i > 0 { assert clients[i] == clients[1..][i - 1]; }
          }
        }
        r
  }
}
