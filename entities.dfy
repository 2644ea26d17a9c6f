/** Rows of the three tables the queue core reads and writes: medical
    institutions, users (doctors and other staff) and queue tickets, plus the
    lookups the ORM relations perform on them. */
module Entities {

  datatype Option<+T> = None | Some(value: T)

  /** A user; doctors are users with clinical attributes. Every attribute the
      schema declares nullable is an Option. `roles` are the user's role names. */
  datatype User = User(
    id: int,
    name: string,
    specialization: Option<string>,
    roomNumber: Option<int>,
    institutionId: Option<int>,
    roles: seq<string>)

  datatype Institution = Institution(id: int, name: string)

  /** The five values of the ticket status column. */
  datatype Status = Waiting | Called | Skipped | Done | Canceled

  /** A queue ticket. `createdAt` is a timestamp in seconds. `otherColumns`
      holds the remaining fillable columns (patient phone and gender, notes,
      start and end time) as text: nothing reads them, but an edit of them
      is a change of the row. */
  datatype Ticket = Ticket(
    id: string,
    ticketNumber: string,
    patientName: string,
    doctorId: Option<int>,
    institutionId: Option<int>,
    status: Status,
    createdAt: int,
    otherColumns: seq<Option<string>>)

  /** The content of the store at one moment. */
  datatype Tables = Tables(institutions: seq<Institution>, users: seq<User>, tickets: seq<Ticket>)

  const SecondsPerDay: int := 86400

  /** The calendar day a timestamp falls on (days since the epoch, rounded down). */
  function DateOf(ts: int): (day: int)
    ensures day * SecondsPerDay <= ts < (day + 1) * SecondsPerDay
  {
    ts / SecondsPerDay
  }

  /** PHP truthiness of a nullable integer id: null and 0 are false. */
  predicate IsTruthy(id: Option<int>)
  {
    id.Some? && id.value != 0
  }

  /** The user a nullable foreign key points to: the first row with that id,
      or nothing when the key is null or dangling. */
  function FindUser(users: seq<User>, id: Option<int>): (r: Option<User>)
    ensures r.Some? ==> r.value in users && id == Some(r.value.id)
    ensures r.None? ==> forall u :: u in users ==> id != Some(u.id)
  {
    if users == [] then None
    else if id == Some(users[0].id) then Some(users[0])
    else FindUser(users[1..], id)
  }

  /** The institution with a nullable id: the first row with that id, or
      nothing when the id is null or unknown. */
  function FindInstitution(institutions: seq<Institution>, id: Option<int>): (r: Option<Institution>)
    ensures r.Some? ==> r.value in institutions && id == Some(r.value.id)
    ensures r.None? ==> forall i :: i in institutions ==> id != Some(i.id)
  {
    if institutions == [] then None
    else if id == Some(institutions[0].id) then Some(institutions[0])
    else FindInstitution(institutions[1..], id)
  }

  /** The doctor of a ticket, through the `doctor_id` relation. */
  function DoctorOf(users: seq<User>, t: Ticket): Option<User>
  {
    FindUser(users, t.doctorId)
  }
}
