/** The queue monitor endpoint: it resolves which medical institution to
    show from the request and the signed-in user, and answers with the same
    snapshot the `QueueUpdated` event pushes, stamped with the time of the
    request. */
module QueueMonitor {
  import opened Entities
  import opened QueueUpdatedEvent
  import opened QueueModel

  /** The institution the monitor shows: the id used in the queries, and the
      row found for it (if any). */
  datatype Resolution = Resolution(id: Option<int>, institution: Option<Institution>)

  /** The first institution in the table, if there is one. */
  function FirstInstitution(institutions: seq<Institution>): (r: Option<Institution>)
    ensures r.Some? <==> |institutions| > 0
    ensures r.Some? ==> r.value == institutions[0]
  {
    if institutions == [] then None else Some(institutions[0])
  }

  /** The first institution is the one its own id finds. */
  lemma {:induction false} FirstFoundById(institutions: seq<Institution>)
    requires |institutions| > 0
    ensures FindInstitution(institutions, Some(institutions[0].id)) == Some(institutions[0])
  {
  }

  /** `query` is the `institution_id` query parameter (None when absent),
      `auth` the signed-in user (None for a guest). A truthy parameter wins;
      otherwise the user's institution replaces it; if the id is still falsy
      the first institution is used, and nothing when there is none. */
  function ResolveInstitution(query: Option<int>, auth: Option<User>, institutions: seq<Institution>): (r: Resolution)
    ensures IsTruthy(query) ==> r.id == query
    ensures !IsTruthy(query) && auth.Some? && IsTruthy(auth.value.institutionId) ==>
      r.id == auth.value.institutionId
    ensures !IsTruthy(query) && (auth.None? || !IsTruthy(auth.value.institutionId)) ==>
      && r.institution == FirstInstitution(institutions)
      && r.id == (if |institutions| > 0 then Some(institutions[0].id) else None)
    ensures r.institution == FindInstitution(institutions, r.id)
    ensures r.id.None? ==> institutions == []
  {
    var id := if !IsTruthy(query) && auth.Some? then auth.value.institutionId else query;
    if !IsTruthy(id) then
      match FirstInstitution(institutions)
      case Some(first) =>
        FirstFoundById(institutions);
        Resolution(Some(first.id), Some(first))
      case None => Resolution(None, None)
    else
      Resolution(id, FindInstitution(institutions, id))
  }

  /** The JSON the endpoint answers with at time `now`: today's tickets of
      the resolved institution's doctors in creation order, its staff and its
      name, stamped `now`. */
  function Index(tables: Tables, query: Option<int>, auth: Option<User>, now: int): (s: Snapshot)
    ensures s.updatedAt == now
    ensures forall i, j :: 0 <= i < j < |s.queues| ==> s.queues[i].createdAt <= s.queues[j].createdAt
    ensures forall i :: 0 <= i < |s.queues| ==> DateOf(s.queues[i].createdAt) == DateOf(now)
    ensures var r := ResolveInstitution(query, auth, tables.institutions);
      s.institutionName == (if r.institution.Some? then r.institution.value.name else DefaultInstitutionName)
  {
    var r := ResolveInstitution(query, auth, tables.institutions);
    SnapshotQueues(tables, r.id, r.institution, DateOf(now), now);
    BuildSnapshot(tables, r.id, r.institution, DateOf(now), now)
  }

  /** What the monitor pulls and what the event pushes for the same
      institution agree on the same day, except for the `updated_at` stamp. */
  lemma PullMatchesPush(tables: Tables, query: Option<int>, auth: Option<User>, pulled: int, pushed: int)
    requires ResolveInstitution(query, auth, tables.institutions).id.Some?
    requires DateOf(pulled) == DateOf(pushed)
    ensures var x := ResolveInstitution(query, auth, tables.institutions).id.value;
      Index(tables, query, auth, pulled) == NewQueueUpdated(tables, x, pushed).queueData.(updatedAt := pulled)
  {
  }

  /** With no institution at all the id stays null, and the monitor lists
      the tickets of today of doctors who belong to no institution, under the
      default name. */
  lemma NoInstitutions(tables: Tables, query: Option<int>, auth: Option<User>, now: int)
    requires tables.institutions == []
    requires !IsTruthy(query) && (auth.None? || !IsTruthy(auth.value.institutionId))
    ensures var s := Index(tables, query, auth, now);
      && s.institutionName == DefaultInstitutionName
      && forall t :: t in tables.tickets && Qualifies(tables.users, None, DateOf(now), t) ==>
           exists i :: 0 <= i < |s.queues| && s.queues[i] == QueueEntryOf(t, DoctorOf(tables.users, t).value)
  {
    var s := Index(tables, query, auth, now);
    forall t | t in tables.tickets && Qualifies(tables.users, None, DateOf(now), t)
      ensures exists i :: 0 <= i < |s.queues| && s.queues[i] == QueueEntryOf(t, DoctorOf(tables.users, t).value)
    {
      ShownOnMonitor(tables, None, None, DateOf(now), now, t);
    }
  }

  /** A stored ticket that qualifies for an institution and day is one of
      the entries of the snapshot for them. */
  lemma ShownOnMonitor(tables: Tables, id: Option<int>, institution: Option<Institution>, today: int,
                       updatedAt: int, t: Ticket)
    requires t in tables.tickets && Qualifies(tables.users, id, today, t)
    ensures var s := BuildSnapshot(tables, id, institution, today, updatedAt);
      exists i :: 0 <= i < |s.queues| && s.queues[i] == QueueEntryOf(t, DoctorOf(tables.users, t).value)
  {
    var ts := OrderedTickets(tables, id, today);
    SnapshotQueues(tables, id, institution, today, updatedAt);
    assert multiset(ts)[t] > 0;
    var i :| 0 <= i < |ts| && ts[i] == t;
  }

  /** A ticket just created for a doctor of a truthy institution is on that
      institution's monitor the same day, with its issued number. */
  lemma NewTicketOnMonitor(tables: Tables, t: Ticket, now: int, letter: char, later: int)
    requires 'A' <= letter <= 'Z'
    requires DoctorOf(tables.users, t).Some? && IsTruthy(DoctorOf(tables.users, t).value.institutionId)
    requires DateOf(later) == DateOf(now)
    ensures var after := tables.(tickets := tables.tickets + [Issued(tables, t, now, letter)]);
      var s := Index(after, DoctorOf(tables.users, t).value.institutionId, None, later);
      exists i :: 0 <= i < |s.queues| && s.queues[i].id == t.id
        && s.queues[i].ticketNumber == NumberFor(tables, t, now, letter)
        && s.queues[i].createdAt == now
  {
    var issued := Issued(tables, t, now, letter);
    assert issued.id == t.id && issued.ticketNumber == NumberFor(tables, t, now, letter) && issued.createdAt == now;
    var after := tables.(tickets := tables.tickets + [issued]);
    var doctor := DoctorOf(tables.users, t).value;
    var r := ResolveInstitution(doctor.institutionId, None, after.institutions);
    assert DoctorOf(after.users, issued) == Some(doctor);
    ShownOnMonitor(after, doctor.institutionId, r.institution, DateOf(later), later, issued);
    var s := Index(after, doctor.institutionId, None, later);
    assert s == BuildSnapshot(after, doctor.institutionId, r.institution, DateOf(later), later);
    var i :| 0 <= i < |s.queues| && s.queues[i] == QueueEntryOf(issued, doctor);
  }
}
