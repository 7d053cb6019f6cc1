/**
 * The clients page. Its client list is page state, seeded with three
 * sample clients and never written to the store: submitting the form
 * puts the new client at the front of the list and empties the form.
 */
module Clients {
  import opened Rows
  import opened Lists

  /** A client of the page's list; `notes` is absent on the seeded clients. */
  datatype Client = Client(id: string, name: string, phone: string, serviceType: string, notes: Option<string>)

  /** The form's fields. */
  datatype ClientForm = ClientForm(name: string, phone: string, serviceType: string, notes: string)

  const EmptyForm := ClientForm("", "", "", "")

  /** The client `handleSubmit` builds: the form's fields under the id `stamp` (`Date.now()` as text). */
  function NewClient(stamp: string, form: ClientForm): Client
  {
    Client(stamp, form.name, form.phone, form.serviceType, Some(form.notes))
  }

  /** The page's state: the client list, the form, the dialog and the search box. */
  class ClientsPage {
    var clients: seq<Client>
    var formData: ClientForm
    var open: bool
    var search: string

    /** The page as it first renders. */
    constructor ()
      ensures clients == [
        Client("1", "João da Silva", "(11) 99999-9999", "Ar-condicionado", None),
        Client("2", "Maria Santos", "(11) 98888-8888", "Limpeza", None),
        Client("3", "Carlos Oliveira", "(11) 97777-7777", "Elétrica", None)
      ]
      ensures formData == EmptyForm && !open && search == ""
    {
      clients := [
        Client("1", "João da Silva", "(11) 99999-9999", "Ar-condicionado", None),
        Client("2", "Maria Santos", "(11) 98888-8888", "Limpeza", None),
        Client("3", "Carlos Oliveira", "(11) 97777-7777", "Elétrica", None)
      ];
      formData := EmptyForm;
      open := false;
      search := "";
    }

    /**
     * `handleSubmit`: the new client goes first, the previous clients follow
     * in their order, the form is emptied and the dialog closes.
     */
    method HandleSubmit(stamp: string)
      modifies this`clients, this`formData, this`open
      ensures clients == [NewClient(stamp, old(formData))] + old(clients)
      ensures |clients| == |old(clients)| + 1
      ensures formData == EmptyForm && !open
    {
      clients := [NewClient(stamp, formData)] + clients;
      formData := EmptyForm;
      open := false;
    }
  }

  /** The test of `filteredClients`: name or service type contains the search. */
  function ClientMatches(search: string, fold: string -> string): Client -> bool
  {
    (c: Client) => SearchHit(c.name, search, fold) || SearchHit(c.serviceType, search, fold)
  }

  /** `filteredClients`. */
  function FilteredClients(clients: seq<Client>, search: string, fold: string -> string): seq<Client>
  {
    Filter(clients, ClientMatches(search, fold))
  }

  /** The new client carries exactly the form's fields. */
  lemma NewClientSpec(stamp: string, form: ClientForm)
    ensures var c := NewClient(stamp, form);
      c.id == stamp && c.name == form.name && c.phone == form.phone && c.serviceType == form.serviceType
      && c.notes == Some(form.notes)
  {
  }

  /**
   * The filtered clients are, in their original order, exactly the clients
   * whose name or service type contains the search.
   */
  lemma FilteredClientsSpec(clients: seq<Client>, search: string, fold: string -> string, x: Client)
    ensures x in FilteredClients(clients, search, fold) <==>
      x in clients && (SearchHit(x.name, search, fold) || SearchHit(x.serviceType, search, fold))
    ensures IsSubsequence(FilteredClients(clients, search, fold), clients)
    ensures multiset(FilteredClients(clients, search, fold))[x] ==
      if SearchHit(x.name, search, fold) || SearchHit(x.serviceType, search, fold)
      then multiset(clients)[x] else 0
  {
    FilterIsSubsequence(clients, ClientMatches(search, fold));
    FilterMultiplicity(clients, ClientMatches(search, fold), x);
  }

  /** An empty search shows every client. */
  lemma FilteredClientsEmptySearch(clients: seq<Client>, fold: string -> string)
    requires fold("") == ""
    ensures FilteredClients(clients, "", fold) == clients
  {
    forall x | x in clients ensures ClientMatches("", fold)(x) {
      EmptySearchHits(x.name, fold);
    }
    FilterKeepsAll(clients, ClientMatches("", fold));
  }

  /**
   * After a submit the filtered list is the old filtered list, with the new
   * client in front exactly when it matches the search.
   */
  lemma FilterAfterSubmit(c: Client, clients: seq<Client>, search: string, fold: string -> string)
    ensures FilteredClients([c] + clients, search, fold) ==
      (if SearchHit(c.name, search, fold) || SearchHit(c.serviceType, search, fold) then [c] else [])
      + FilteredClients(clients, search, fold)
  {
    FilterCons(c, clients, ClientMatches(search, fold));
  }
}
