/** The `QueueUpdated` broadcast event and the queue snapshot it carries: the
    day's tickets of one institution's doctors in creation order, the
    institution's staff that hold a role, and the institution's name. The
    monitor endpoint assembles the same snapshot with `BuildSnapshot`. */
module QueueUpdatedEvent {
  import opened Entities
  import opened Decimal

  /** Placeholder for a missing specialization. */
  const NotSpecified: string := "Не указано"
  /** Placeholder for a missing room number. */
  const NotAvailable: string := "Н/Д"
  /** Institution name used when the institution does not exist. */
  const DefaultInstitutionName: string := "Медицинское учреждение"
  const ChannelPrefix: string := "queue-monitor."
  const EventName: string := "queue.updated"
  const PayloadKey: string := "data"

  /** The JSON value of a `room_number` field: the room's integer, or the
      placeholder text. */
  datatype RoomValue = RoomNumber(number: int) | RoomText(text: string)

  datatype DoctorEntry = DoctorEntry(id: int, name: string, specialization: string, roomNumber: RoomValue)

  datatype QueueEntry = QueueEntry(
    id: string,
    ticketNumber: string,
    patientName: string,
    status: Status,
    doctor: DoctorEntry,
    createdAt: int)

  datatype Snapshot = Snapshot(
    queues: seq<QueueEntry>,
    doctors: seq<DoctorEntry>,
    institutionName: string,
    updatedAt: int)

  // ---------------------------------------------------------------- entries

  /** A doctor as the snapshot shows it: a null specialization or room
      number is replaced by its placeholder, a present one is copied. */
  function DoctorEntryOf(u: User): (e: DoctorEntry)
    ensures e.id == u.id && e.name == u.name
    ensures e.specialization == (if u.specialization.Some? then u.specialization.value else NotSpecified)
    ensures e.roomNumber == (if u.roomNumber.Some? then RoomNumber(u.roomNumber.value) else RoomText(NotAvailable))
  {
    var specialization := match u.specialization case Some(s) => s case None => NotSpecified;
    var room := match u.roomNumber case Some(n) => RoomNumber(n) case None => RoomText(NotAvailable);
    DoctorEntry(u.id, u.name, specialization, room)
  }

  // ---------------------------------------------------------------- queues

  /** A ticket belongs in an institution's snapshot for `today` when its
      doctor exists and works at that institution (compared as nullable ids,
      so a null id selects doctors without an institution) and it was created
      on `today`. The ticket's own institution id is not consulted. */
  predicate Qualifies(users: seq<User>, id: Option<int>, today: int, t: Ticket)
  {
    var d := DoctorOf(users, t);
    d.Some? && d.value.institutionId == id && DateOf(t.createdAt) == today
  }

  /** The qualifying tickets in store order: each occurs as often as it does
      in the store if it qualifies, and not at all otherwise. */
  function TodaysTickets(users: seq<User>, tickets: seq<Ticket>, id: Option<int>, today: int): (ts: seq<Ticket>)
    ensures forall t :: t in ts ==> Qualifies(users, id, today, t)
    ensures forall t :: multiset(ts)[t] == (if Qualifies(users, id, today, t) then multiset(tickets)[t] else 0)
  {
    if tickets == [] then []
    else
      assert tickets == [tickets[0]] + tickets[1..];
      (if Qualifies(users, id, today, tickets[0]) then [tickets[0]] else [])
        + TodaysTickets(users, tickets[1..], id, today)
  }

  predicate SortedByCreatedAt(ts: seq<Ticket>)
  {
    forall i, j :: 0 <= i < j < |ts| ==> ts[i].createdAt <= ts[j].createdAt
  }

  /** Inserts `t` into a sorted sequence, before the first ticket created
      later than or at the same time as it. */
  function InsertByCreatedAt(t: Ticket, sorted: seq<Ticket>): (s: seq<Ticket>)
    requires SortedByCreatedAt(sorted)
    ensures SortedByCreatedAt(s)
    ensures multiset(s) == multiset(sorted) + multiset{t}
  {
    if sorted == [] || t.createdAt <= sorted[0].createdAt then [t] + sorted
    else
      var tail := InsertByCreatedAt(t, sorted[1..]);
      InsertBehindHead(t, sorted, tail);
      [sorted[0]] + tail
  }

  /** The step of the insertion when `t` goes behind the head of `sorted`:
      the head followed by the insertion into the rest. */
  lemma InsertBehindHead(t: Ticket, sorted: seq<Ticket>, tail: seq<Ticket>)
    requires SortedByCreatedAt(sorted) && |sorted| > 0 && sorted[0].createdAt < t.createdAt
    requires SortedByCreatedAt(tail) && multiset(tail) == multiset(sorted[1..]) + multiset{t}
    ensures SortedByCreatedAt([sorted[0]] + tail)
    ensures multiset([sorted[0]] + tail) == multiset(sorted) + multiset{t}
  {
    assert sorted == [sorted[0]] + sorted[1..];
    forall x | x in tail ensures sorted[0].createdAt <= x.createdAt {
      assert x in multiset(tail);
      if x != t {
        assert x in multiset(sorted[1..]);
      }
    }
    SortedCons(sorted[0], tail);
  }

  /** A ticket created no later than every ticket of a sorted sequence can
      go in front of it. */
  lemma SortedCons(x: Ticket, ts: seq<Ticket>)
    requires SortedByCreatedAt(ts)
    requires forall y :: y in ts ==> x.createdAt <= y.createdAt
    ensures SortedByCreatedAt([x] + ts)
  {
    var s := [x] + ts;
    forall i, j | 0 <= i < j < |s| ensures s[i].createdAt <= s[j].createdAt {
      assert s[j] == ts[j - 1];
      if i > 0 {
        assert s[i] == ts[i - 1];
      } else {
        assert ts[j - 1] in ts;
      }
    }
  }

  /** Tickets ordered by creation time, ascending (the query's
      `orderBy('created_at', 'asc')`); the result is a permutation of the
      input. */
  function SortByCreatedAt(ts: seq<Ticket>): (s: seq<Ticket>)
    ensures SortedByCreatedAt(s)
    ensures multiset(s) == multiset(ts)
  {
    if ts == [] then []
    else
      assert ts == [ts[0]] + ts[1..];
      InsertByCreatedAt(ts[0], SortByCreatedAt(ts[1..]))
  }

  /** The tickets a snapshot shows: exactly the qualifying tickets of the
      store, as often as stored, in ascending creation order. */
  function OrderedTickets(tables: Tables, id: Option<int>, today: int): (ts: seq<Ticket>)
    ensures SortedByCreatedAt(ts)
    ensures forall t :: t in ts ==> t in tables.tickets && Qualifies(tables.users, id, today, t)
    ensures forall t :: multiset(ts)[t] == (if Qualifies(tables.users, id, today, t) then multiset(tables.tickets)[t] else 0)
  {
    var filtered := TodaysTickets(tables.users, tables.tickets, id, today);
    var ts := SortByCreatedAt(filtered);
    forall t | t in ts ensures t in tables.tickets {
      assert t in multiset(ts);
    }
    ts
  }

  /** A ticket as the snapshot shows it, with its doctor. */
  function QueueEntryOf(t: Ticket, doctor: User): QueueEntry
  {
    QueueEntry(t.id, t.ticketNumber, t.patientName, t.status, DoctorEntryOf(doctor), t.createdAt)
  }

  /** One entry per ticket, in the same order; every ticket has a doctor. */
  function QueueEntries(users: seq<User>, ts: seq<Ticket>): (q: seq<QueueEntry>)
    requires forall t :: t in ts ==> DoctorOf(users, t).Some?
    ensures |q| == |ts|
    ensures forall i :: 0 <= i < |ts| ==> q[i] == QueueEntryOf(ts[i], DoctorOf(users, ts[i]).value)
  {
    seq(|ts|, i requires 0 <= i < |ts| => QueueEntryOf(ts[i], DoctorOf(users, ts[i]).value))
  }

  // ---------------------------------------------------------------- staff

  /** A user appears in the roster when they belong to the institution and
      hold at least one role. */
  predicate OnRoster(id: Option<int>, u: User)
  {
    u.institutionId == id && |u.roles| > 0
  }

  /** The users of the institution that hold at least one role, in store
      order, each as often as in the store. */
  function Staff(users: seq<User>, id: Option<int>): (s: seq<User>)
    ensures forall u :: u in s ==> OnRoster(id, u)
    ensures forall u :: multiset(s)[u] == if OnRoster(id, u) then multiset(users)[u] else 0
  {
    if users == [] then []
    else
      assert users == [users[0]] + users[1..];
      (if OnRoster(id, users[0]) then [users[0]] else []) + Staff(users[1..], id)
  }

  function DoctorEntries(users: seq<User>): (d: seq<DoctorEntry>)
    ensures |d| == |users| && forall i :: 0 <= i < |users| ==> d[i] == DoctorEntryOf(users[i])
  {
    seq(|users|, i requires 0 <= i < |users| => DoctorEntryOf(users[i]))
  }

  // ---------------------------------------------------------------- snapshot

  function InstitutionName(institution: Option<Institution>): (name: string)
  {
    match institution
    case Some(i) => i.name
    case None => DefaultInstitutionName
  }

  /** The snapshot for the institution with nullable id `id`, where
      `institution` is the row the caller found for it and `updatedAt` the
      build time. */
  function BuildSnapshot(tables: Tables, id: Option<int>, institution: Option<Institution>,
                         today: int, updatedAt: int): (s: Snapshot)
  {
    var ts := OrderedTickets(tables, id, today);
    Snapshot(QueueEntries(tables.users, ts),
             DoctorEntries(Staff(tables.users, id)),
             InstitutionName(institution),
             updatedAt)
  }

  /** What a snapshot promises about its queue: one entry per qualifying
      ticket (as often as it is stored), in ascending creation order, each
      copying the ticket's id, number, patient name, status and creation time
      and showing the ticket's doctor, who works at the institution. */
  lemma SnapshotQueues(tables: Tables, id: Option<int>, institution: Option<Institution>,
                       today: int, updatedAt: int)
    ensures var s := BuildSnapshot(tables, id, institution, today, updatedAt);
      var ts := OrderedTickets(tables, id, today);
      && |s.queues| == |ts|
      && (forall i, j :: 0 <= i < j < |s.queues| ==> s.queues[i].createdAt <= s.queues[j].createdAt)
      && (forall i :: 0 <= i < |ts| ==>
            && s.queues[i].id == ts[i].id
            && s.queues[i].ticketNumber == ts[i].ticketNumber
            && s.queues[i].patientName == ts[i].patientName
            && s.queues[i].status == ts[i].status
            && s.queues[i].createdAt == ts[i].createdAt
            && DateOf(ts[i].createdAt) == today
            && DoctorOf(tables.users, ts[i]).Some?
            && DoctorOf(tables.users, ts[i]).value.institutionId == id
            && s.queues[i].doctor == DoctorEntryOf(DoctorOf(tables.users, ts[i]).value))
      && (forall t :: multiset(ts)[t] == if Qualifies(tables.users, id, today, t) then multiset(tables.tickets)[t] else 0)
  {
    var ts := OrderedTickets(tables, id, today);
    forall i | 0 <= i < |ts| ensures Qualifies(tables.users, id, today, ts[i]) {
      assert ts[i] in ts;
    }
  }

  /** What a snapshot promises about its roster: one entry per user of the
      institution holding a role (as often as stored), and the institution's
      name or the fallback. */
  lemma {:induction false} SnapshotRoster(tables: Tables, id: Option<int>, institution: Option<Institution>,
                       today: int, updatedAt: int)
    ensures var s := BuildSnapshot(tables, id, institution, today, updatedAt);
      var staff := Staff(tables.users, id);
      && |s.doctors| == |staff|
      && (forall i :: 0 <= i < |staff| ==> s.doctors[i] == DoctorEntryOf(staff[i]) && OnRoster(id, staff[i]))
      && (forall u :: multiset(staff)[u] == if OnRoster(id, u) then multiset(tables.users)[u] else 0)
      && s.institutionName == (if institution.Some? then institution.value.name else DefaultInstitutionName)
  {
    var staff := Staff(tables.users, id);
    forall i | 0 <= i < |staff| ensures OnRoster(id, staff[i]) {
      assert staff[i] in staff;
    }
  }

  // ---------------------------------------------------------------- event

  /** The channel name of an institution. */
  function Channel(institutionId: int): string
  {
    ChannelPrefix + IntToDecimal(institutionId)
  }

  /** A channel name is the prefix followed by the institution id, which
      reads back from it. */
  lemma ChannelRoundTrip(institutionId: int)
    ensures |Channel(institutionId)| > |ChannelPrefix|
    ensures Channel(institutionId)[..|ChannelPrefix|] == ChannelPrefix
    ensures ParseInt(Channel(institutionId)[|ChannelPrefix|..]) == Some(institutionId)
  {
    var c := Channel(institutionId);
    IntToDecimalRoundTrip(institutionId);
    assert c[|ChannelPrefix|..] == IntToDecimal(institutionId);
  }

  /** The broadcast event: its institution id and the snapshot taken when it
      was constructed. */
  datatype QueueUpdated = QueueUpdated(institutionId: int, queueData: Snapshot)
  {
    /** The single public channel the event goes out on. */
    function BroadcastOn(): (channels: seq<string>)
      ensures |channels| == 1 && channels[0] == Channel(institutionId)
    {
      [Channel(institutionId)]
    }

    function BroadcastAs(): (name: string)
      ensures name == EventName
    {
      EventName
    }

    /** The payload: the snapshot under the single key `data`. */
    function BroadcastWith(): (payload: map<string, Snapshot>)
      ensures payload.Keys == {PayloadKey} && payload[PayloadKey] == queueData
    {
      map[PayloadKey := queueData]
    }
  }

  /** The event's constructor: it records the institution id and builds the
      snapshot at once, from the store as it is at time `now`. */
  function NewQueueUpdated(tables: Tables, institutionId: int, now: int): (e: QueueUpdated)
    ensures e.institutionId == institutionId
    ensures e.queueData.updatedAt == now
    ensures e.queueData == BuildSnapshot(tables, Some(institutionId),
              FindInstitution(tables.institutions, Some(institutionId)), DateOf(now), now)
  {
    var snapshot := BuildSnapshot(tables, Some(institutionId),
                      FindInstitution(tables.institutions, Some(institutionId)), DateOf(now), now);
    QueueUpdated(institutionId, snapshot)
  }
}
