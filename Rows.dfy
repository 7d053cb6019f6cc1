/**
 * Row shapes and closed enumerations of the backing tables, as the
 * generated database types declare them. Money is held in integer cents
 * and every timestamp is an integer supplied by the caller.
 */
module Rows {

  /** Opaque row and account identifiers (uuid strings in the store). */
  type Id = string

  /** A point in time, abstracted as an integer. */
  type Time = int

  /** An amount of money in cents. */
  type Cents = int

  datatype Option<+T> = None | Some(value: T)

  /** The `quote_status` enumeration. */
  datatype QuoteStatus = Sent | Approved | Lost

  /** The `payment_status` enumeration. */
  datatype PaymentStatus = Pending | Paid

  /** The `payment_method` enumeration. */
  datatype PaymentMethod = Pix | Cash | Other

  /** The `appointment_status` enumeration. */
  datatype AppointmentStatus = Scheduled | Completed | Cancelled

  /** A row of the `clients` table, as the quote and payment pages fetch it. */
  datatype ClientRow = ClientRow(
    id: Id,
    userId: Id,
    name: string,
    phone: string,
    serviceType: string,
    notes: Option<string>)

  /** A row of the `quotes` table. */
  datatype Quote = Quote(
    id: Id,
    userId: Id,
    clientId: Option<Id>,
    clientName: string,
    service: string,
    value: Cents,
    status: QuoteStatus)

  /** A row of the `payments` table; `quoteId` is a weak back-reference. */
  datatype Payment = Payment(
    id: Id,
    userId: Id,
    quoteId: Option<Id>,
    clientId: Option<Id>,
    clientName: string,
    service: string,
    value: Cents,
    status: PaymentStatus,
    paymentMethod: Option<PaymentMethod>,
    paidAt: Option<Time>)

  /** A row of the `appointments` table. */
  datatype Appointment = Appointment(
    id: Id,
    userId: Id,
    clientId: Option<Id>,
    clientName: string,
    title: string,
    date: Time,
    status: AppointmentStatus,
    notes: Option<string>)

  /** The errors a page mutation throws before it writes anything. */
  datatype Error =
    | NotAuthenticated  // no signed-in user
    | InvalidClient     // the chosen client is not in the fetched client list
    | InvalidDate       // the form's date string does not parse to a time

  /** How a page mutation ends. */
  datatype Outcome = Ok | Err(error: Error)
}
