# equeue queue core in Dafny

A model of the queue-ticket core of the equeue clinic queue backend, with
proofs about it:

- **Ticket numbering.** The `creating` hook of the `Queue` model counts the
  doctor's tickets of the day. It then numbers the new ticket
  `<letter><room>-<sequence>`:
  - the letter is random, A-Z;
  - the room is the doctor's room number, "000" without a doctor, and empty
    for a doctor without a room;
  - the sequence is count + 1, zero-padded to three digits and never cut.
- **Broadcasts.** The `created`, `updated` and `deleted` hooks broadcast a
  `QueueUpdated` event to the institution of the ticket's doctor, or else to
  the ticket's own institution, when that id is truthy.
- **The snapshot.** The event carries a snapshot, built once by its
  constructor. It holds:
  - today's tickets of the institution's doctors, in creation order;
  - the institution's staff who hold a role, with placeholders for a missing
    specialization or room;
  - the institution's name, or a fallback name;
  - the build time.
- **The status vocabulary.** Five keys, each with its Russian label.
- **The monitor endpoint.** `QueueMonitorController::index` resolves the
  institution from the query parameter, then from the signed-in user, then
  takes the first institution. It answers with the same snapshot as the
  event.

Files:

- `entities.dfy` (module `Entities`): the rows of the institutions, users
  and tickets tables, and the lookups that the `doctor` relation and `find`
  perform. It also has the truthiness of a nullable id and the calendar day
  of a timestamp.
- `decimal.dfy` (module `Decimal`): how PHP prints an integer, `str_pad`
  with `STR_PAD_LEFT`, and reading digits back.
- `queue_updated.dfy` (module `QueueUpdatedEvent`): the snapshot builder
  shared by the event and the endpoint, and the event with its channel,
  name and payload.
- `queue.dfy` (module `QueueModel`):
  - the status table;
  - ticket numbering, and creating tickets one after the other (`Trace`);
  - the notification rule;
  - the `Store` class. It holds the three tables and a ghost log of the
    broadcast events, and its methods run the hooks of a create, an update
    or a delete.
- `queue_monitor.dfy` (module `QueueMonitor`): the endpoint.

Inputs that come from outside the code are parameters:
- the clock (`now`, a timestamp in seconds; a calendar day is `now / 86400`);
- the random letter (`letter`, required to be in A-Z);
- the request's `institution_id` (an optional integer);
- the signed-in user (an optional user).

## Model

| member | source | states |
|---|---|---|
| Entities.DateOf | app/Models/Queue.php:41 | the day of a timestamp is the whole day that contains it |
| Entities.FindUser | app/Models/Queue.php:94-97 | the doctor relation finds a user with exactly the ticket's doctor id, and finds nothing only when no user has that id (or the id is null) |
| Entities.FindInstitution | app/Events/QueueUpdated.php:67 | `find` returns an institution with exactly that id, and nothing only when none has it |
| Entities.DoctorOf | app/Models/Queue.php:94-97 | the `doctor` relation: the user found for the ticket's `doctor_id`; see FindUser |
| Entities.IsTruthy | app/Models/Queue.php:60 | PHP truthiness of a nullable id: null and 0 are false; used by Notifications and ResolveInstitution |
| Decimal.NatToDecimalDigits | app/Models/Queue.php:52 | the decimal text of a count is non-empty digits, has no leading zero except "0", and denotes the count |
| Decimal.IntToDecimalRoundTrip | app/Models/Queue.php:54 | an interpolated integer (the room number) reads back as itself; it is all digits exactly when not negative |
| Decimal.IntToDecimal | app/Models/Queue.php:54 | PHP's text of an integer interpolated into a string; see IntToDecimalRoundTrip |
| Decimal.PadLeft | app/Models/Queue.php:52 | `str_pad` with STR_PAD_LEFT; see PadLeftShape |
| Decimal.PadLeftShape | app/Models/Queue.php:52 | `str_pad` to width 3 gives length max(3, length of the input), ends with the input, and pads only with the pad character |
| Decimal.LeadingZeros | app/Models/Queue.php:52 | left zero-padding does not change the number the digits denote |
| QueueModel.StatusFromKey | app/Models/Queue.php:80-89 | a key maps to the status whose key it is, and to nothing exactly when it is none of the five keys |
| QueueModel.KeyRoundTrip | app/Models/Queue.php:80-89 | every status is read back from its key |
| QueueModel.Statuses | app/Models/Queue.php:80-89 | the table has exactly five entries with distinct keys, every status appears with its label, and every key is a status key |
| QueueModel.RoomPart | app/Models/Queue.php:49-50 | the room part of a number; see RoomPartCases |
| QueueModel.CountToday | app/Models/Queue.php:44-46 | the doctor's count of tickets of the day; see CountIsMatchingPositions, CountConcat, OthersDoNotCount |
| QueueModel.SequenceSuffix | app/Models/Queue.php:52 | the padded sequence; see SuffixDigits, SuffixLayout, SuffixExamples |
| QueueModel.TicketNumber | app/Models/Queue.php:54 | letter, room part, dash, sequence; see TicketNumberRoundTrip |
| QueueModel.RoomPartCases | app/Models/Queue.php:49-50 | the room part is "000" exactly when the ticket has no doctor, empty for a doctor without a room, and otherwise reads back as the doctor's room number |
| QueueModel.CountIsMatchingPositions | app/Models/Queue.php:44-46 | the count is the number of stored tickets with the same doctor id (null matches null) created on that day |
| QueueModel.CountConcat | app/Models/Queue.php:44-46 | the count over two parts of the table is the sum of the counts |
| QueueModel.OthersDoNotCount | app/Models/Queue.php:44-46 | tickets of other doctors or other days do not change the count |
| QueueModel.SuffixDigits | app/Models/Queue.php:52 | the sequence suffix is all digits and denotes count + 1 |
| QueueModel.SuffixLayout | app/Models/Queue.php:52 | the suffix is three characters unless the number needs more; then it is the plain decimal, never cut and with no leading zero |
| QueueModel.SuffixExamples | app/Models/Queue.php:52 | 3 gives "003" and 1000 gives "1000" |
| QueueModel.TicketNumberRoundTrip | app/Models/Queue.php:54 | letter, room part and digit suffix are recovered from a ticket number, even for a negative room or one ending in digits |
| QueueModel.SequenceReadBack | app/Models/Queue.php:52-54 | the sequence number is read back from a ticket number |
| QueueModel.NumberFor | app/Models/Queue.php:53-54 | a ticket number starts with an uppercase letter A-Z |
| QueueModel.NumberForParts | app/Models/Queue.php:40-55 | a number splits into the given letter, the doctor's room part and the suffix of count + 1, and its sequence reads back as count + 1 |
| QueueModel.ThirdTicketInRoom12 | app/Models/Queue.php:44-54 | the third ticket of the day of a doctor in room 12 is numbered `<letter>12-003` |
| QueueModel.Issued | app/Models/Queue.php:40-55 | the row inserted after the `creating` hook: numbered by NumberFor and stamped with the creation time; see NumberForParts |
| QueueModel.AfterIssue | app/Models/Queue.php:40-55 | the store once a ticket is created: the issued row appended, the rest unchanged; see IssueOne, SequentialNumbers, Store.CreateTicket |
| QueueModel.IssueOne | app/Models/Queue.php:40-46 | creating a ticket for a doctor on a day raises that doctor's count for that day by one |
| QueueModel.AlongTrace | app/Models/Queue.php:40-55 | after k creations for one doctor on one day, the doctor's count has grown by k and the users are unchanged |
| QueueModel.SequentialNumbers | app/Models/Queue.php:40-55 | creations in a row for one doctor on one day are numbered count + 1, count + 2, ... in creation order, each with its own letter and the doctor's room part |
| QueueModel.FirstTicketsOfTheDay | app/Models/Queue.php:44-54 | a doctor's first N tickets of a day carry sequence numbers 1..N in creation order, and pairwise different ticket numbers |
| QueueModel.NotifyInstitutionId | app/Models/Queue.php:59 | the notified institution is the doctor's when the doctor exists and has one, otherwise the ticket's own |
| QueueModel.Notifications | app/Models/Queue.php:58-63 | a change publishes exactly one event when the resolved id is truthy and none otherwise; the event is for that id and holds the snapshot of the store after the change |
| QueueModel.NoOtherInstitutionNotified | app/Models/Queue.php:59-61 | no event of a change goes to any other institution |
| QueueModel.Store.Broadcast | app/Models/Queue.php:59-62 | the log grows by exactly the change's notifications, and nothing else changes |
| QueueModel.Store.CreateTicket | app/Models/Queue.php:40-63 | the returned number is the hook's number; the store becomes the store with the issued ticket (numbered, created now) appended; the log grows by its notifications |
| QueueModel.Store.UpdateTicket | app/Models/Queue.php:65-70 | the row is replaced and the other rows are untouched; a broadcast happens exactly when some column changed, an edit of only the notes, phone, gender or times included |
| QueueModel.Store.DeleteTicket | app/Models/Queue.php:72-77 | the row is removed, other rows keep their order, and the removed ticket's notifications are logged on the store without it |
| QueueUpdatedEvent.DoctorEntryOf | app/Events/QueueUpdated.php:97-103 | a null specialization or room becomes its placeholder; present values, id and name are copied unchanged |
| QueueUpdatedEvent.TodaysTickets | app/Events/QueueUpdated.php:70-74 | exactly the tickets whose doctor works at the institution and that were created today, each as often as stored; the ticket's own institution is not consulted |
| QueueUpdatedEvent.InsertByCreatedAt | app/Events/QueueUpdated.php:75 | inserting into a sorted sequence keeps it sorted and adds exactly the one ticket |
| QueueUpdatedEvent.SortByCreatedAt | app/Events/QueueUpdated.php:75 | the result is sorted by creation time, ascending, and is a permutation of the input |
| QueueUpdatedEvent.OrderedTickets | app/Events/QueueUpdated.php:70-76 | the queue's tickets are the stored qualifying tickets, with their multiplicities, in ascending creation order |
| QueueUpdatedEvent.QueueEntries | app/Events/QueueUpdated.php:77-91 | one entry per ticket, same length and order, each built from its ticket and the ticket's doctor |
| QueueUpdatedEvent.QueueEntryOf | app/Events/QueueUpdated.php:78-90 | one queue entry built from a ticket and its doctor; see SnapshotQueues |
| QueueUpdatedEvent.Staff | app/Events/QueueUpdated.php:94-96 | exactly the users of the institution holding at least one role, with their multiplicities |
| QueueUpdatedEvent.DoctorEntries | app/Events/QueueUpdated.php:97-104 | one doctor entry per staff member, same order |
| QueueUpdatedEvent.InstitutionName | app/Events/QueueUpdated.php:109 | the institution's name or 'Медицинское учреждение'; see SnapshotRoster |
| QueueUpdatedEvent.BuildSnapshot | app/Events/QueueUpdated.php:65-112 | `getQueueData`, shared with the endpoint; see SnapshotQueues, SnapshotRoster, PullMatchesPush |
| QueueUpdatedEvent.SnapshotQueues | app/Events/QueueUpdated.php:70-91 | the snapshot's queue has one entry per qualifying ticket, sorted by creation time; each copies the ticket's id, number, patient name, status and creation time, and shows its doctor, who works at the institution |
| QueueUpdatedEvent.SnapshotRoster | app/Events/QueueUpdated.php:93-109 | the snapshot's doctors are the role-holding users of the institution; the name is the institution's or the fallback |
| QueueUpdatedEvent.ChannelRoundTrip | app/Events/QueueUpdated.php:40 | the channel name is "queue-monitor." followed by text that reads back as the institution id |
| QueueUpdatedEvent.Channel | app/Events/QueueUpdated.php:40 | the channel name; see ChannelRoundTrip |
| QueueUpdatedEvent.QueueUpdated.BroadcastOn | app/Events/QueueUpdated.php:37-42 | the event goes out on exactly one channel, the institution's |
| QueueUpdatedEvent.QueueUpdated.BroadcastAs | app/Events/QueueUpdated.php:47-50 | the event name is "queue.updated" whatever the event |
| QueueUpdatedEvent.QueueUpdated.BroadcastWith | app/Events/QueueUpdated.php:55-60 | the payload has the single key "data", mapped to the snapshot |
| QueueUpdatedEvent.NewQueueUpdated | app/Events/QueueUpdated.php:26-30 | the event keeps its institution id and the snapshot of the store at construction time, stamped with that time |
| QueueMonitor.FirstInstitution | app/Http/Controllers/Api/QueueMonitorController.php:25 | the first institution exists exactly when the table is non-empty, and is its first row |
| QueueMonitor.ResolveInstitution | app/Http/Controllers/Api/QueueMonitorController.php:17-29 | a truthy query parameter wins even with a user signed in; otherwise the user's truthy institution; otherwise the first institution, or null when there is none. The institution shown is always the one found for the resolved id |
| QueueMonitor.Index | app/Http/Controllers/Api/QueueMonitorController.php:14-74 | the answer is stamped now, its queue is sorted by creation time and is all of today, and its name is the resolved institution's or the fallback |
| QueueMonitor.PullMatchesPush | app/Http/Controllers/Api/QueueMonitorController.php:31-73 | for a resolved institution and the same day, the answer equals the event's snapshot except for the `updated_at` stamp |
| QueueMonitor.NoInstitutions | app/Http/Controllers/Api/QueueMonitorController.php:23-26 | with no institution, the name is the fallback, and every ticket of today whose doctor has no institution is shown |
| QueueMonitor.ShownOnMonitor | app/Http/Controllers/Api/QueueMonitorController.php:32-53 | every stored qualifying ticket appears in the snapshot as its entry with its doctor |
| QueueMonitor.NewTicketOnMonitor | app/Models/Queue.php:40-55 | a ticket just created for a doctor of a truthy institution is on that institution's monitor the same day, with its id, its issued number and its creation time |

## Left out

- The race between two concurrent creations for one doctor is not modelled. Both can count before either inserts, and then both get the same sequence. The model creates tickets one at a time, and `SequentialNumbers` holds only for that serial order.
- Broadcast transport is not modelled: websockets, queued broadcasting, and failures of a publish. A broadcast is an entry appended to the ghost `published` log.
- `created_at` and `updated_at` are integer timestamps, not ISO-8601 text. The calendar day is the UTC day of the timestamp; the application's time zone is not modelled.
- The `institution_id` query parameter is an optional integer. Non-numeric strings, and PHP's loose comparison of them with integer columns, are not modelled.
- Ties in `orderBy('created_at')` are kept in store order. The database may return equal timestamps in any order.
- UUID generation for ticket ids (`HasUuids`) is not modelled; ids are given by the caller.
- The ticket columns outside the snapshot (phone, gender, notes, start and end time) are kept only as opaque text in `otherColumns`, so that editing them still counts as a change; their types and `updated_at` are not modelled.
- An institution's name is never null in the model. The source's fallback for a null name is therefore reached only when the institution is missing.
- Loading and caching of Eloquent relations is not modelled: `load('doctor')` and `with(...)`.
- The admin screens, the access policies, migrations, seeders and routes are not part of this model.
- `QueueModel.Store.constructor` only sets up the tables for the other methods; it models no source operation.
