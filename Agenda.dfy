/**
 * The agenda page: the appointment form, the writes it makes to the
 * appointments table, the per-day list and the two counters.
 *
 * Calendar days are abstracted: `dayOf` maps a time to the local day it
 * falls on, and `parse` stands for `new Date(text)`, with None when the
 * text is not a date (the page's `toISOString()` then throws).
 */
module Agenda {
  import opened Rows
  import opened Lists
  import opened Store

  /** The appointment form (`appointmentSchema`). */
  datatype AppointmentForm = AppointmentForm(
    title: string,
    clientName: string,
    date: string,
    status: AppointmentStatus,
    notes: Option<string>)

  /**
   * `appointmentSchema`: title and client name of at least three
   * characters and a non-empty date. The status is one of the three
   * enumeration values by construction.
   */
  predicate ValidAppointmentForm(f: AppointmentForm)
  {
    |f.title| >= 3 && |f.clientName| >= 3 && |f.date| >= 1
  }

  /** `values.notes || null`: absent or empty notes are stored as null. */
  function NotesColumn(notes: Option<string>): Option<string>
  {
    if notes == Some("") then None else notes
  }

  /** The row `createAppointment` inserts; the client id is left unset. */
  function AppointmentFromForm(id: Id, user: Id, f: AppointmentForm, date: Time): Appointment
  {
    Appointment(id, user, None, f.clientName, f.title, date, f.status, NotesColumn(f.notes))
  }

  /** The update `updateAppointment` applies to the row with that id and user, if there is one. */
  function UpdateAppointmentRow(m: map<Id, Appointment>, user: Id, id: Id, f: AppointmentForm, date: Time)
    : map<Id, Appointment>
  {
    if id in m && m[id].userId == user
    then m[id := m[id].(title := f.title, clientName := f.clientName, date := date, status := f.status,
                        notes := NotesColumn(f.notes))]
    else m
  }

  /** The delete of the row with that id and user, if there is one. */
  function DeleteAppointmentRow(m: map<Id, Appointment>, user: Id, id: Id): map<Id, Appointment>
  {
    if id in m && m[id].userId == user then m - {id} else m
  }

  // ---------------------------------------------------------------------------
  // Properties of the writes

  /** An appointment saved from a valid form has a title and a client name of at least three characters. */
  lemma ValidAppointmentFormRow(id: Id, user: Id, f: AppointmentForm, date: Time)
    requires ValidAppointmentForm(f)
    ensures var a := AppointmentFromForm(id, user, f, date);
      |a.title| >= 3 && |a.clientName| >= 3 && a.title == f.title && a.clientName == f.clientName
  {
  }

  /** Empty notes become null; any other notes are kept as they are. */
  lemma NotesColumnSpec(notes: Option<string>)
    ensures NotesColumn(notes).None? <==> (notes == None || notes == Some(""))
    ensures NotesColumn(notes).Some? ==> NotesColumn(notes) == notes && notes.value != ""
  {
  }

  /** Creating copies title, client name, parsed date and status from the form, and maps empty notes to null. */
  lemma AppointmentFromFormSpec(id: Id, user: Id, f: AppointmentForm, date: Time)
    ensures var a := AppointmentFromForm(id, user, f, date);
      && a.id == id && a.userId == user && a.clientId == None
      && a.title == f.title && a.clientName == f.clientName && a.date == date && a.status == f.status
      && (a.notes.None? <==> f.notes == None || f.notes == Some(""))
      && a.notes == NotesColumn(f.notes)
  {
  }

  /**
   * Updating rewrites the form's fields on the row with that id and user
   * and nothing else: its id, owner and client id stay, and every other row
   * is unchanged.
   */
  lemma UpdateAppointmentRowOnlyThatRow(m: map<Id, Appointment>, user: Id, id: Id, f: AppointmentForm, date: Time)
    requires AppointmentsKeyed(m)
    ensures var r := UpdateAppointmentRow(m, user, id, f, date);
      && r.Keys == m.Keys
      && AppointmentsKeyed(r)
      && (forall k :: k in m && k != id ==> r[k] == m[k])
      && (id in m && m[id].userId == user ==>
            r[id] == AppointmentFromForm(id, user, f, date).(clientId := m[id].clientId))
      && (id in m && m[id].userId != user ==> r[id] == m[id])
  {
  }

  /** Deleting removes only that row, and only when it belongs to the user. */
  lemma DeleteAppointmentRowOnlyThatRow(m: map<Id, Appointment>, user: Id, id: Id)
    ensures var r := DeleteAppointmentRow(m, user, id);
      && (id in m && m[id].userId == user ==> r.Keys == m.Keys - {id})
      && (!(id in m && m[id].userId == user) ==> r == m)
      && (forall k :: k in r ==> k in m && r[k] == m[k])
  {
  }

  // ---------------------------------------------------------------------------
  // The page's mutations

  /** `createAppointment`. */
  method CreateAppointment(db: Database, user: Option<Id>, f: AppointmentForm, parse: string -> Option<Time>,
                           newId: Id) returns (r: Outcome)
    requires db.Valid()
    requires newId !in db.appointments
    modifies db`appointments
    ensures db.Valid()
    ensures user.None? ==> r == Err(NotAuthenticated)
    ensures user.Some? && parse(f.date).None? ==> r == Err(InvalidDate)
    ensures r.Err? ==> db.appointments == old(db.appointments)
    ensures user.Some? && parse(f.date).Some? ==>
      r == Ok && db.appointments == old(db.appointments)[newId :=
        AppointmentFromForm(newId, user.value, f, parse(f.date).value)]
  {
    if user.None? {
      return Err(NotAuthenticated);
    }
    var date := parse(f.date);
    if date.None? {
      return Err(InvalidDate);
    }
    db.appointments := db.appointments[newId := AppointmentFromForm(newId, user.value, f, date.value)];
    r := Ok;
  }

  /** `updateAppointment`. */
  method UpdateAppointment(db: Database, user: Option<Id>, id: Id, f: AppointmentForm,
                           parse: string -> Option<Time>) returns (r: Outcome)
    requires db.Valid()
    modifies db`appointments
    ensures db.Valid()
    ensures user.None? ==> r == Err(NotAuthenticated)
    ensures user.Some? && parse(f.date).None? ==> r == Err(InvalidDate)
    ensures r.Err? ==> db.appointments == old(db.appointments)
    ensures user.Some? && parse(f.date).Some? ==>
      r == Ok && db.appointments == UpdateAppointmentRow(old(db.appointments), user.value, id, f, parse(f.date).value)
  {
    if user.None? {
      return Err(NotAuthenticated);
    }
    var date := parse(f.date);
    if date.None? {
      return Err(InvalidDate);
    }
    UpdateAppointmentRowOnlyThatRow(db.appointments, user.value, id, f, date.value);
    db.appointments := UpdateAppointmentRow(db.appointments, user.value, id, f, date.value);
    r := Ok;
  }

  /** `deleteAppointment`. */
  method DeleteAppointment(db: Database, user: Option<Id>, id: Id) returns (r: Outcome)
    requires db.Valid()
    modifies db`appointments
    ensures db.Valid()
    ensures user.None? ==> r == Err(NotAuthenticated) && db.appointments == old(db.appointments)
    ensures user.Some? ==> r == Ok && db.appointments == DeleteAppointmentRow(old(db.appointments), user.value, id)
  {
    if user.None? {
      return Err(NotAuthenticated);
    }
    db.appointments := DeleteAppointmentRow(db.appointments, user.value, id);
    r := Ok;
  }

  // ---------------------------------------------------------------------------
  // The per-day list and the counters

  /** The test of `appointmentsForSelectedDay`: `isSameDay(appointment.date, day)`. */
  function OnDay(day: Time, dayOf: Time -> int): Appointment -> bool
  {
    (a: Appointment) => dayOf(a.date) == dayOf(day)
  }

  /** `appointmentsForSelectedDay`: every appointment when no day is selected. */
  function AppointmentsForDay(appointments: seq<Appointment>, selected: Option<Time>, dayOf: Time -> int)
    : seq<Appointment>
  {
    if selected.None? then appointments else Filter(appointments, OnDay(selected.value, dayOf))
  }

  /** The test of `upcomingCount`: scheduled, and strictly after now. */
  function IsUpcoming(now: Time): Appointment -> bool
  {
    (a: Appointment) => a.status == Scheduled && a.date > now
  }

  predicate IsCompleted(a: Appointment) { a.status == Completed }

  /** `upcomingCount`. */
  function UpcomingCount(appointments: seq<Appointment>, now: Time): nat
  {
    |Filter(appointments, IsUpcoming(now))|
  }

  /** `completedCount`. */
  function CompletedCount(appointments: seq<Appointment>): nat
  {
    |Filter(appointments, IsCompleted)|
  }

  /**
   * The day list is, in order, exactly the appointments on the selected
   * day, and all of them when no day is selected.
   */
  lemma AppointmentsForDaySpec(appointments: seq<Appointment>, selected: Option<Time>, dayOf: Time -> int,
                               x: Appointment)
    ensures selected.None? ==> AppointmentsForDay(appointments, selected, dayOf) == appointments
    ensures selected.Some? ==>
      (x in AppointmentsForDay(appointments, selected, dayOf) <==>
         x in appointments && dayOf(x.date) == dayOf(selected.value))
    ensures IsSubsequence(AppointmentsForDay(appointments, selected, dayOf), appointments)
    ensures selected.Some? ==>
      multiset(AppointmentsForDay(appointments, selected, dayOf))[x] ==
        if dayOf(x.date) == dayOf(selected.value) then multiset(appointments)[x] else 0
  {
    if selected.Some? {
      FilterIsSubsequence(appointments, OnDay(selected.value, dayOf));
      FilterMultiplicity(appointments, OnDay(selected.value, dayOf), x);
    } else {
      SubsequenceOfSelf(appointments);
    }
  }

  /** The upcoming count is the number of scheduled appointments dated strictly after now. */
  lemma UpcomingCountSpec(appointments: seq<Appointment>, now: Time, x: Appointment)
    ensures UpcomingCount(appointments, now) <= |appointments|
    ensures multiset(Filter(appointments, IsUpcoming(now)))[x] ==
      if x.status == Scheduled && x.date > now then multiset(appointments)[x] else 0
  {
    FilterMultiplicity(appointments, IsUpcoming(now), x);
  }

  /** The completed count is the number of completed appointments. */
  lemma CompletedCountSpec(appointments: seq<Appointment>, x: Appointment)
    ensures CompletedCount(appointments) <= |appointments|
    ensures multiset(Filter(appointments, IsCompleted))[x] ==
      if x.status == Completed then multiset(appointments)[x] else 0
  {
    FilterMultiplicity(appointments, IsCompleted, x);
  }

  /** The two counters select disjoint statuses, so together they never exceed the total. */
  lemma UpcomingPlusCompletedBounded(appointments: seq<Appointment>, now: Time)
    ensures UpcomingCount(appointments, now) + CompletedCount(appointments) <= |appointments|
  {
    FilterDisjointBound(appointments, IsUpcoming(now), IsCompleted);
  }
}
