# Quote, payment and agenda bookkeeping — a Dafny model

This project models the row-level bookkeeping of a small business-management
web app (clients, quotes, payments, appointments). The pages write straight
to a hosted relational store. The model replaces that store with in-memory
tables and proves what each page's writes and lists do.

- **Quotes page** (`src/pages/Quotes.tsx`). Saving a quote as *approved*
  runs the quote-to-payment linkage `ensurePaymentForQuote`. It looks up the
  user's payments that point at the quote. If there are none, it inserts one
  pending payment. Otherwise it re-syncs client, service and value on every
  linked payment. Deleting a quote first clears `quote_id` on its payments,
  then deletes the quote, so the payments stay.
- **Payments page** (`src/pages/Payments.tsx`). It covers the form rules,
  how `payment_method` and `paid_at` follow from the status, create, update,
  delete and mark-as-paid, the search list and its pending/paid split, and
  the approved quotes offered for the chosen client.
- **Agenda page** (`src/pages/Agenda.tsx`). It covers appointment create,
  update and delete, the per-day list, and the upcoming and completed
  counters.
- **Clients page** (`src/pages/Clients.tsx`). It holds a client list in
  page state: submit puts the new client first, and a search filters the
  list.

Layout, one module per file:

- `Rows` holds the row shapes and closed enumerations of
  `src/integrations/supabase/types.ts`.
- `Lists` holds the generic `filter`, order-preserving subsequence and
  substring search.
- `Store` holds the `Database` class. Its `quotes`, `payments` and
  `appointments` fields are maps from row id to row. It also holds the
  client lookup and the payment status rule.
- `Quotes`, `Payments`, `Agenda` and `Clients` hold one page each.

Each page mutation is a method on the `Database` that changes only the
tables it names in `modifies`. Its `ensures` equate the new table with a
pure function of the old one. The lemmas prove their properties about those
functions.

Modelling choices:

- Money is integer cents. The form rule "at least 0.01" becomes `value >= 1`.
- A time is an integer, and the caller supplies the current time (`now`).
- A fresh row id is a parameter that is not yet a key of its table. The
  store generates these ids.
- Lower-casing is a parameter `fold: string -> string`. The empty-search
  lemmas need only `fold("") == ""`.
- `isSameDay` is a parameter `dayOf: Time -> int`.
- `new Date(text)` is a parameter `parse: string -> Option<Time>`. `None`
  stands for an unparsable date, where the page's `toISOString()` throws.
- An unauthenticated call (`user` is `None`) fails with `NotAuthenticated`
  and writes nothing. So does a client id missing from the fetched client
  list (`InvalidClient`), and an unparsable appointment date (`InvalidDate`).

The code behaves differently from what a reader might expect in these places:

- **At most one payment per quote holds only inside the linkage.** One might
  expect it to hold for the whole table. It does not. The code keeps it only
  inside `ensurePaymentForQuote` (`Quotes.EnsurePreservesAtMostOne`). The
  payment form can attach any approved quote of the client, even one that
  already has a payment (`Payments.CreateCanDuplicateLink`).
- **The linkage's "exactly one" needs a precondition.** It holds only when
  at most one payment was linked before the call
  (`Quotes.EnsureLeavesExactlyOne`). With two or more linked payments, the
  call re-syncs all of them.
- **Saving a payment rewrites `paid_at`.** One might expect reverting to
  pending to leave an earlier `paid_at` in place. It does not. The code
  clears `paid_at` and `payment_method` on every save as pending. It also
  re-stamps `paid_at` with the current time on every save as paid.
- **The paid-without-method check is only in the form.** One might expect
  the write itself to refuse a paid payment without a method. It does not.
  Only the form schema rejects it, and the mutation functions write
  whatever they are given. `Payments.ValidFormGivesPaidConsistent` and
  `Payments.PaidWithoutMethodIsInconsistent` show that the form rule is
  what keeps the status rule.
- **There is no aggregation.** The code has no monthly summary or
  recent-activity computation. The dashboard figures are hard-coded, so
  neither is modelled.

## Model

| member | source | states |
|---|---|---|
| `Lists.Filter` | src/pages/Payments.tsx:293-304 | `Array.filter`: the result is no longer than the input, and an element is in it exactly when it is in the input and passes the test |
| `Lists.FilterIsSubsequence` | src/pages/Quotes.tsx:300-308 | a filtered list keeps the original order (it is a subsequence of the input) |
| `Lists.FilterMultiplicity` | src/pages/Clients.tsx:57-61 | a filter keeps every occurrence of a passing value and none of a failing one |
| `Lists.FilterPartition` | src/pages/Payments.tsx:303-304 | two complementary tests split a list: the lengths add up and the multisets add up to the input's |
| `Lists.FilterDisjointBound` | src/pages/Agenda.tsx:223-236 | two tests that never hold together select at most the length of the list between them |
| `Lists.EmptySearchHits` | src/pages/Clients.tsx:57-61 | `text.includes("")` holds, so an empty search matches every text when folding keeps "" empty |
| `Store.FindClient` | src/pages/Quotes.tsx:169-170 | `clients.find` by id: None exactly when no fetched client has that id, otherwise the first client with that id |
| `Quotes.EnsureInsertsOnePending` | src/pages/Quotes.tsx:134-151 | with no linked payment, exactly one row is added; it is pending, with no method and no paid time, and carries the quote's id, client id, client name, service and value; every existing row is unchanged; it is then the only linked payment |
| `Quotes.EnsureResyncsLinked` | src/pages/Quotes.tsx:152-163 | with linked payments, no row is added or removed; each one takes client id, client name, service and value from the quote and keeps id, owner, quote id, status, method and paid time; unlinked rows are unchanged; the set of linked payments is the same |
| `Quotes.EnsureIdempotent` | src/pages/Quotes.tsx:134-163 | a second linkage call with the same quote leaves the payments table exactly as the first call left it |
| `Quotes.EnsurePreservesAtMostOne` | src/pages/Quotes.tsx:141-163 | for every user and quote, at most one linked payment before the call means at most one after it |
| `Quotes.EnsureLeavesExactlyOne` | src/pages/Quotes.tsx:134-163 | starting from at most one linked payment, exactly one payment is linked to the quote after the call |
| `Quotes.EnsurePreservesKeyed` | src/pages/Quotes.tsx:141-163 | the linkage keeps every payment stored under its own id, including the inserted one |
| `Quotes.EnsurePreservesPaidConsistent` | src/pages/Quotes.tsx:142-162 | the linkage keeps, on every row, the rule that a payment is paid exactly when it has a paid time and a method |
| `Quotes.UnlinkKeepsPayments` | src/pages/Quotes.tsx:264-268 | unlinking deletes no payment; afterwards none of the user's payments points at the quote; the ones that did differ only in `quote_id`, now null; the status rule is kept |
| `Quotes.ValidQuoteFormRows` | src/pages/Quotes.tsx:44-49 | a quote saved from a valid form, and the pending payment derived from it, carry the chosen client, the service and a value of at least one cent, and the payment meets the status rule |
| `Quotes.UpdateQuoteRowOnlyThatRow` | src/pages/Quotes.tsx:221-231 | a quote update rewrites client id, client name, service, value and status on the row with that id and user only; every other row is unchanged |
| `Quotes.DeleteQuoteRowOnlyThatRow` | src/pages/Quotes.tsx:270-274 | a quote delete removes only the row with that id, and only when it belongs to the user |
| `Quotes.EnsurePaymentForQuote` | src/pages/Quotes.tsx:126-164 | fails unauthenticated without writing; otherwise it does the linkage above on the payments table only and keeps the status rule |
| `Quotes.CreateQuote` | src/pages/Quotes.tsx:166-196 | an unknown client fails before any write; otherwise it inserts the quote, and the payments change only when the quote is saved as approved |
| `Quotes.UpdateQuote` | src/pages/Quotes.tsx:215-244 | an unknown client fails before any write; otherwise it updates the quote row, and the payments change only when the quote is saved as approved |
| `Quotes.DeleteQuote` | src/pages/Quotes.tsx:261-277 | it unlinks the quote's payments, then deletes that quote row, and keeps the status rule |
| `Quotes.FilteredQuotesSpec` | src/pages/Quotes.tsx:300-308 | the quote list holds, in order and with every occurrence, exactly the quotes whose folded client name or service contains the folded search |
| `Quotes.FilteredQuotesEmptySearch` | src/pages/Quotes.tsx:300-308 | an empty search keeps all quotes |
| `Payments.QuoteIdColumnSpec` | src/pages/Payments.tsx:164 | an absent or empty quote id from the form is stored as null; any other one is stored as given |
| `Payments.PaymentFromFormSpec` | src/pages/Payments.tsx:160-170 | a save stores the method only when paid (null otherwise); it stores the paid time exactly when paid, and that time is the save time; it stores the quote id with an absent or empty one as null, the looked-up client name and the form's client id, service, value and status |
| `Payments.ValidFormGivesPaidConsistent` | src/pages/Payments.tsx:45-62 | a payment saved from a valid form is paid exactly when it has a method and a paid time |
| `Payments.PaidWithoutMethodIsInconsistent` | src/pages/Payments.tsx:54-61 | a paid form without a method fails the schema, and saving it anyway would store a paid payment with no method |
| `Payments.UpdatePaymentRowSpec` | src/pages/Payments.tsx:195-208 | an update rewrites the row with that id and user from the form, so saving as pending clears method and paid time, and saving as paid re-stamps the paid time; every other row is unchanged; a valid form keeps the status rule |
| `Payments.MarkPaidOnlyThatRow` | src/pages/Payments.tsx:255-263 | mark-as-paid sets status paid, the chosen method and the paid time now on that one row; every other field and every other row is unchanged; the status rule is kept |
| `Payments.DeletePaymentRowOnlyThatRow` | src/pages/Payments.tsx:231-235 | a payment delete removes only the row with that id, and only when it belongs to the user |
| `Payments.CreateCanDuplicateLink` | src/pages/Payments.tsx:160-170 | attaching a quote id that already has a linked payment leaves two payments linked to that quote |
| `Payments.CreatePayment` | src/pages/Payments.tsx:154-173 | an unknown client fails before any write; otherwise it inserts exactly the row built from the form under the new id; from a valid form it keeps the status rule |
| `Payments.UpdatePayment` | src/pages/Payments.tsx:189-211 | an unknown client fails before any write; otherwise it applies the update above; from a valid form it keeps the status rule |
| `Payments.DeletePayment` | src/pages/Payments.tsx:228-237 | it deletes by id and user, and no other payment changes |
| `Payments.MarkAsPaid` | src/pages/Payments.tsx:252-266 | it applies the mark-as-paid update to the payments table only, and keeps the status rule |
| `Payments.FilteredPaymentsSpec` | src/pages/Payments.tsx:293-301 | the payment list holds, in order, exactly the payments whose folded client name or service contains the folded search, each with all its occurrences |
| `Payments.PendingPaidPartition` | src/pages/Payments.tsx:303-304 | each filtered payment is in exactly one of the pending and paid lists; lengths and multisets add up to the filtered list; both keep its order |
| `Payments.AvailableQuotesSpec` | src/pages/Payments.tsx:306-312 | the quotes offered are, in order, exactly the approved quotes whose client id is the selected client, each with all its occurrences; a quote with no client is never offered |
| `Agenda.ValidAppointmentFormRow` | src/pages/Agenda.tsx:45-51 | an appointment saved from a valid form has a title and a client name of at least three characters |
| `Agenda.NotesColumnSpec` | src/pages/Agenda.tsx:118 | absent or empty notes are stored as null; others as given |
| `Agenda.AppointmentFromFormSpec` | src/pages/Agenda.tsx:112-119 | create copies title, client name, parsed date and status from the form, leaves the client id null, stores absent or empty notes as null and any other notes as given |
| `Agenda.UpdateAppointmentRowOnlyThatRow` | src/pages/Agenda.tsx:147-157 | update rewrites the form's fields on the row with that id and user only; id, owner and client id stay; every other row is unchanged |
| `Agenda.DeleteAppointmentRowOnlyThatRow` | src/pages/Agenda.tsx:186-190 | delete removes only the row with that id, and only when it belongs to the user |
| `Agenda.CreateAppointment` | src/pages/Agenda.tsx:109-122 | fails unauthenticated or on an unparsable date without writing; otherwise it inserts exactly the row built from the form |
| `Agenda.UpdateAppointment` | src/pages/Agenda.tsx:144-160 | fails unauthenticated or on an unparsable date without writing; otherwise it applies the update above to the appointments table only |
| `Agenda.DeleteAppointment` | src/pages/Agenda.tsx:183-193 | it deletes by id and user, and no other appointment changes |
| `Agenda.AppointmentsForDaySpec` | src/pages/Agenda.tsx:216-221 | with no day selected the list is all appointments; otherwise it holds, in order and with every occurrence, exactly the appointments on the same day as the selected date |
| `Agenda.UpcomingCountSpec` | src/pages/Agenda.tsx:223-231 | the upcoming count counts each scheduled appointment dated strictly after now, with its multiplicity, and nothing else |
| `Agenda.CompletedCountSpec` | src/pages/Agenda.tsx:233-236 | the completed count counts each completed appointment, with its multiplicity, and nothing else |
| `Agenda.UpcomingPlusCompletedBounded` | src/pages/Agenda.tsx:223-236 | upcoming plus completed never exceeds the number of appointments |
| `Clients.ClientsPage.constructor` | src/pages/Clients.tsx:27-40 | the page starts with exactly the three sample clients, ids "1" to "3", with their names, phones and service types and no notes, an empty form, the dialog closed and an empty search |
| `Clients.ClientsPage.HandleSubmit` | src/pages/Clients.tsx:42-50 | submit puts the new client at index 0 followed by the previous clients in order, so the count grows by one; it empties the form and closes the dialog |
| `Clients.NewClientSpec` | src/pages/Clients.tsx:44-47 | the new client's name, phone, service type and notes are the form's, under the given time-stamp id |
| `Clients.FilteredClientsSpec` | src/pages/Clients.tsx:57-61 | the client list holds, in order and with every occurrence, exactly the clients whose folded name or service type contains the folded search |
| `Clients.FilteredClientsEmptySearch` | src/pages/Clients.tsx:57-61 | an empty search shows every client |
| `Clients.FilterAfterSubmit` | src/pages/Clients.tsx:42-61 | after a submit, the filtered list is the old filtered list with the new client in front exactly when it matches the search |

## Left out

- Network and UI: the store client, the query cache and its invalidation,
  toasts, dialogs, the JSX, and form pre-filling on edit are not modelled.
  Each fetched list is a parameter in the order it was fetched. The query
  ordering (`created_at`, `date`, `name`) is not modelled.
- Store failures: the in-memory tables never fail, so the
  `if (error) throw error` paths are not modelled. The errors the code
  ignores (the re-sync update at `src/pages/Quotes.tsx:153` and the unlink at
  `:264`) stay ignored. One case is not captured: if the lookup at
  `src/pages/Quotes.tsx:134-139` fails, the code inserts a second payment.
  A failed write midway leaves the quote written without its payment, and
  that is not captured either.
- The store's own constraints: foreign keys (`quote_id` to quotes,
  `client_id` to clients) and row-level security are not modelled. Each
  user scope is an explicit `user_id` test instead. Column defaults are not
  modelled either: a nullable column the insert leaves out is taken to be
  null. That gives the pending payment's method and paid time
  (`src/pages/Quotes.tsx:142-150`) and the new appointment's client id
  (`src/pages/Agenda.tsx:112-119`).
- Concurrency: the model is sequential. Interleaved mutations are not
  modelled, and the code has no locking.
- Floating point: `value` is integer cents. `z.coerce.number` coercion,
  including text that is not a number, is not modelled.
- Time: `created_at` and `updated_at` are not modelled. `new Date()` is the
  `now` parameter, `Date.now().toString()` is the `stamp` parameter, and
  date-fns time zones are hidden behind `dayOf`.
- Unicode case mapping: it is hidden behind `fold`. `string.length` is
  counted in characters, not UTF-16 code units.
- Form validation: it runs before a mutation is called. So the form schemas
  are separate predicates, and the mutation methods accept any form, as the
  mutation functions do. The clients page's `required` inputs are browser
  checks and are not modelled. Its field and search input handlers are not
  modelled either.
- Other files: sign-in and routing (`src/hooks/useAuth.tsx`,
  `src/pages/Auth.tsx`, `src/components/ProtectedRoute.tsx`) are not
  modelled. Neither are the static and mock screens (`src/pages/Index.tsx`,
  `src/components/AppLayout.tsx`, `src/pages/Dashboard.tsx`), the theme
  toggle, or the type-level helpers of `src/integrations/supabase/types.ts`.
