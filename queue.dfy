/** The queue ticket model: the status vocabulary, the ticket number a new
    ticket receives, and the broadcast that follows every create, update and
    delete of a ticket. */
module QueueModel {
  import opened Entities
  import opened Decimal
  import opened QueueUpdatedEvent

  // ---------------------------------------------------------------- statuses

  function StatusKey(s: Status): string
  {
    match s
    case Waiting => "waiting"
    case Called => "called"
    case Skipped => "skipped"
    case Done => "done"
    case Canceled => "canceled"
  }

  function StatusLabel(s: Status): string
  {
    match s
    case Waiting => "Ожидание"
    case Called => "Вызван"
    case Skipped => "Пропущен"
    case Done => "Завершен"
    case Canceled => "Отменен"
  }

  /** The status a stored key denotes, if it is one of the five. */
  function StatusFromKey(key: string): (r: Option<Status>)
    ensures r.Some? ==> StatusKey(r.value) == key
    ensures r.None? ==> forall s :: StatusKey(s) != key
  {
    if key == "waiting" then Some(Waiting)
    else if key == "called" then Some(Called)
    else if key == "skipped" then Some(Skipped)
    else if key == "done" then Some(Done)
    else if key == "canceled" then Some(Canceled)
    else None
  }

  /** The key-to-label table shown to clients: exactly the five statuses,
      each key once, each with its one label. */
  function Statuses(): (table: seq<(string, string)>)
    ensures |table| == 5
    ensures forall s: Status :: (StatusKey(s), StatusLabel(s)) in table
    ensures forall i :: 0 <= i < |table| ==>
      StatusFromKey(table[i].0).Some? && table[i].1 == StatusLabel(StatusFromKey(table[i].0).value)
    ensures forall i, j :: 0 <= i < j < |table| ==> table[i].0 != table[j].0
  {
    var order := [Waiting, Called, Skipped, Done, Canceled];
    var table := seq(5, i requires 0 <= i < 5 => (StatusKey(order[i]), StatusLabel(order[i])));
    forall i | 0 <= i < 5 ensures StatusFromKey(table[i].0) == Some(order[i]) {
      KeyRoundTrip(order[i]);
    }
    forall s: Status ensures (StatusKey(s), StatusLabel(s)) in table {
      var k := match s case Waiting => 0 case Called => 1 case Skipped => 2 case Done => 3 case Canceled => 4;
      assert table[k] == (StatusKey(s), StatusLabel(s));
    }
    table
  }

  /** Every status is read back from its own key. */
  lemma KeyRoundTrip(s: Status)
    ensures StatusFromKey(StatusKey(s)) == Some(s)
  {
  }

  // ---------------------------------------------------------------- numbering

  /** Room part used when the ticket has no doctor. */
  const DefaultRoom: string := "000"

  /** The room part of a ticket number: the doctor's room number as PHP
      prints it (a null room prints as nothing), or "000" without a doctor. */
  function RoomPart(doctor: Option<User>): string
  {
    match doctor
    case None => DefaultRoom
    case Some(d) =>
      match d.roomNumber
      case None => ""
      case Some(n) => IntToDecimal(n)
  }

  /** "000" marks exactly the tickets without a doctor; a doctor without a
      room prints nothing, and a room number is read back from its text. */
  lemma RoomPartCases(doctor: Option<User>)
    ensures (RoomPart(doctor) == DefaultRoom) == doctor.None?
    ensures doctor.Some? && doctor.value.roomNumber.None? ==> RoomPart(doctor) == ""
    ensures doctor.Some? && doctor.value.roomNumber.Some? ==>
      ParseInt(RoomPart(doctor)) == Some(doctor.value.roomNumber.value)
  {
    if doctor.Some? && doctor.value.roomNumber.Some? {
      var r := IntToDecimal(doctor.value.roomNumber.value);
      IntToDecimalRoundTrip(doctor.value.roomNumber.value);
      if r[0] == '0' { assert r == "0"; } else { assert DefaultRoom[0] == '0'; }
    }
  }

  /** A ticket counts towards a doctor's day when it has that doctor id
      (both null counts as equal) and was created on that day. */
  predicate SameDoctorSameDay(t: Ticket, doctorId: Option<int>, day: int)
  {
    t.doctorId == doctorId && DateOf(t.createdAt) == day
  }

  /** Positions of the stored tickets that count towards a doctor's day. */
  function MatchingPositions(tickets: seq<Ticket>, doctorId: Option<int>, day: int): set<int>
  {
    set i | 0 <= i < |tickets| && SameDoctorSameDay(tickets[i], doctorId, day)
  }

  /** How many stored tickets a doctor has on a day. */
  function CountToday(tickets: seq<Ticket>, doctorId: Option<int>, day: int): nat
  {
    if tickets == [] then 0
    else
      var before := CountToday(tickets[..|tickets| - 1], doctorId, day);
      if SameDoctorSameDay(tickets[|tickets| - 1], doctorId, day) then before + 1 else before
  }

  /** The matching positions of a non-empty sequence are those of all but
      its last ticket, plus the last position when that ticket matches. */
  lemma MatchingSplit(tickets: seq<Ticket>, doctorId: Option<int>, day: int)
    requires |tickets| > 0
    ensures var n := |tickets| - 1;
      MatchingPositions(tickets, doctorId, day)
        == MatchingPositions(tickets[..n], doctorId, day)
           + (if SameDoctorSameDay(tickets[n], doctorId, day) then {n} else {})
    ensures |tickets| - 1 !in MatchingPositions(tickets[..|tickets| - 1], doctorId, day)
  {
    var n := |tickets| - 1;
    var prefix := tickets[..n];
    forall i | 0 <= i < n ensures prefix[i] == tickets[i] {}
  }

  /** The count is the number of positions holding a ticket of that doctor
      and day. */
  lemma {:induction false} CountIsMatchingPositions(tickets: seq<Ticket>, doctorId: Option<int>, day: int)
    ensures CountToday(tickets, doctorId, day) == |MatchingPositions(tickets, doctorId, day)|
    decreases |tickets|
  {
    if tickets == [] {
      assert MatchingPositions(tickets, doctorId, day) == {};
    } else {
      CountIsMatchingPositions(tickets[..|tickets| - 1], doctorId, day);
      MatchingSplit(tickets, doctorId, day);
    }
  }

  /** Counting is additive over concatenation. */
  lemma {:induction false} CountConcat(a: seq<Ticket>, b: seq<Ticket>, doctorId: Option<int>, day: int)
    ensures CountToday(a + b, doctorId, day) == CountToday(a, doctorId, day) + CountToday(b, doctorId, day)
    decreases |b|
  {
    if b == [] {
      assert a + b == a;
    } else {
      var b' := b[..|b| - 1];
      assert (a + b)[..|a + b| - 1] == a + b';
      CountConcat(a, b', doctorId, day);
    }
  }

  /** Tickets of other doctors or other days do not change the count. */
  lemma {:induction false} OthersDoNotCount(a: seq<Ticket>, b: seq<Ticket>, doctorId: Option<int>, day: int)
    requires forall t :: t in b ==> !SameDoctorSameDay(t, doctorId, day)
    ensures CountToday(a + b, doctorId, day) == CountToday(a, doctorId, day)
  {
    CountConcat(a, b, doctorId, day);
    CountIsMatchingPositions(b, doctorId, day);
    assert MatchingPositions(b, doctorId, day) == {} by {
      forall i | 0 <= i < |b| ensures !SameDoctorSameDay(b[i], doctorId, day) {
        assert b[i] in b;
      }
    }
  }

  /** The sequence part of a ticket number: the decimal of `n`, left-padded
      with zeros to three characters and never cut. */
  function SequenceSuffix(n: nat): string
  {
    PadLeft(NatToDecimal(n), 3, '0')
  }

  /** The sequence part is all digits and denotes `n`. */
  lemma SuffixDigits(n: nat)
    ensures AllDigits(SequenceSuffix(n)) && DecimalValue(SequenceSuffix(n)) == n
  {
    var digits := NatToDecimal(n);
    NatToDecimalDigits(n);
    if |digits| < 3 {
      assert SequenceSuffix(n) == Repeat('0', 3 - |digits|) + digits;
      LeadingZeros(3 - |digits|, digits);
    }
  }

  /** The sequence part is three characters long unless `n` needs more,
      and then it is the plain decimal of `n` with no leading zero; it
      always ends with the decimal of `n`, which is never cut. */
  lemma SuffixLayout(n: nat)
    ensures |SequenceSuffix(n)| == if |NatToDecimal(n)| < 3 then 3 else |NatToDecimal(n)|
    ensures |SequenceSuffix(n)| > 3 ==> SequenceSuffix(n) == NatToDecimal(n) && SequenceSuffix(n)[0] != '0'
    ensures SequenceSuffix(n)[|SequenceSuffix(n)| - |NatToDecimal(n)|..] == NatToDecimal(n)
  {
    NatToDecimalDigits(n);
    PadLeftShape(NatToDecimal(n), 3, '0');
  }

  lemma SuffixExamples()
    ensures SequenceSuffix(3) == "003"
    ensures SequenceSuffix(1000) == "1000"
  {
    assert NatToDecimal(3) == "3";
    assert NatToDecimal(1) == "1";
    assert NatToDecimal(10) == "10";
    assert NatToDecimal(100) == "100";
    assert NatToDecimal(1000) == "1000";
  }

  /** A ticket number: the letter, the room part, a dash, the sequence. */
  function TicketNumber(letter: char, room: string, suffix: string): string
  {
    [letter] + room + "-" + suffix
  }

  /** The longest run of digits that ends `s`. */
  function DigitSuffix(s: string): (d: string)
    ensures |d| <= |s| && AllDigits(d)
  {
    if s == [] || !IsDigit(s[|s| - 1]) then [] else DigitSuffix(s[..|s| - 1]) + [s[|s| - 1]]
  }

  /** Splits a ticket number back into letter, room part and sequence: the
      sequence is the trailing run of digits, preceded by a dash (a negative
      room prints a dash of its own, and a room may end in digits, so the
      split cannot be at the first dash or at the first digit). */
  function SplitTicketNumber(s: string): Option<(char, string, string)>
  {
    var d := DigitSuffix(s);
    var dash := |s| - |d| - 1;
    if |d| > 0 && dash >= 1 && s[dash] == '-' then Some((s[0], s[1..dash], d)) else None
  }

  /** The daily sequence number a ticket number carries, if it has one. */
  function SequenceOf(number: string): Option<nat>
  {
    match SplitTicketNumber(number)
    case Some(parts) => Some(DecimalValue(parts.2))
    case None => None
  }

  lemma {:induction false} DigitSuffixAfterDash(prefix: string, digits: string)
    requires AllDigits(digits)
    ensures DigitSuffix(prefix + "-" + digits) == digits
    decreases |digits|
  {
    var s := prefix + "-" + digits;
    if digits == [] {
      assert s[|s| - 1] == '-';
    } else {
      var shorter := digits[..|digits| - 1];
      assert s[..|s| - 1] == prefix + "-" + shorter;
      DigitSuffixAfterDash(prefix, shorter);
      assert digits == shorter + [digits[|digits| - 1]];
    }
  }

  /** Splitting a ticket number gives back its three parts. */
  lemma TicketNumberRoundTrip(letter: char, room: string, suffix: string)
    requires |suffix| > 0 && AllDigits(suffix)
    ensures SplitTicketNumber(TicketNumber(letter, room, suffix)) == Some((letter, room, suffix))
  {
    var s := TicketNumber(letter, room, suffix);
    assert s == ([letter] + room) + "-" + suffix;
    DigitSuffixAfterDash([letter] + room, suffix);
    assert s[1..|room| + 1] == room;
  }

  /** The number the `creating` hook gives ticket `t` when the store holds
      `tables` and the clock reads `now`. */
  function NumberFor(tables: Tables, t: Ticket, now: int, letter: char): (number: string)
    requires 'A' <= letter <= 'Z'
    ensures |number| > 0 && 'A' <= number[0] <= 'Z'
  {
    var next := CountToday(tables.tickets, t.doctorId, DateOf(now)) + 1;
    TicketNumber(letter, RoomPart(DoctorOf(tables.users, t)), SequenceSuffix(next))
  }

  /** The daily sequence number can be read back from a ticket number. */
  lemma SequenceReadBack(letter: char, room: string, n: nat)
    ensures SplitTicketNumber(TicketNumber(letter, room, SequenceSuffix(n))) == Some((letter, room, SequenceSuffix(n)))
    ensures SequenceOf(TicketNumber(letter, room, SequenceSuffix(n))) == Some(n)
  {
    SuffixDigits(n);
    TicketNumberRoundTrip(letter, room, SequenceSuffix(n));
  }

  /** A ticket number is the given letter A-Z, the room part of the
      ticket's doctor, and one more than the doctor's count of tickets created
      that day, padded to three digits. */
  lemma NumberForParts(tables: Tables, t: Ticket, now: int, letter: char)
    requires 'A' <= letter <= 'Z'
    ensures var number := NumberFor(tables, t, now, letter);
      var next := CountToday(tables.tickets, t.doctorId, DateOf(now)) + 1;
      && SplitTicketNumber(number) == Some((letter, RoomPart(DoctorOf(tables.users, t)), SequenceSuffix(next)))
      && SequenceOf(number) == Some(next)
  {
    var next := CountToday(tables.tickets, t.doctorId, DateOf(now)) + 1;
    var room := RoomPart(DoctorOf(tables.users, t));
    assert NumberFor(tables, t, now, letter) == TicketNumber(letter, room, SequenceSuffix(next));
    SequenceReadBack(letter, room, next);
  }

  /** The row the store holds once `t` is created: numbered, and stamped
      with the creation time. */
  function Issued(tables: Tables, t: Ticket, now: int, letter: char): Ticket
    requires 'A' <= letter <= 'Z'
  {
    t.(ticketNumber := NumberFor(tables, t, now, letter), createdAt := now)
  }

  /** The store once `t` is created on `tables`: the issued row appended,
      users and institutions as they were. */
  function AfterIssue(tables: Tables, t: Ticket, now: int, letter: char): Tables
    requires 'A' <= letter <= 'Z'
  {
    tables.(tickets := tables.tickets + [Issued(tables, t, now, letter)])
  }

  /** The third ticket of the day for a doctor in room 12 is numbered
      "<letter>12-003". */
  lemma ThirdTicketInRoom12(tables: Tables, t: Ticket, now: int, letter: char)
    requires 'A' <= letter <= 'Z'
    requires DoctorOf(tables.users, t).Some? && DoctorOf(tables.users, t).value.roomNumber == Some(12)
    requires CountToday(tables.tickets, t.doctorId, DateOf(now)) == 2
    ensures NumberFor(tables, t, now, letter) == [letter] + "12-003"
  {
    assert NatToDecimal(1) == "1";
    assert NatToDecimal(12) == "12";
    assert NatToDecimal(3) == "3";
    assert SequenceSuffix(3) == "003";
  }

  // ---------------------------------------------------------------- issuing in a row

  /** A batch of creations: ticket `requests[i]` created at time `nows[i]`
      with the random letter `letters[i]`. */
  predicate Batch(requests: seq<Ticket>, nows: seq<int>, letters: string)
  {
    |nows| == |requests| && |letters| == |requests| && forall i :: 0 <= i < |letters| ==> 'A' <= letters[i] <= 'Z'
  }

  /** `stores` are the successive contents of the store while the batch is
      created one ticket after the other with no other change in between:
      `stores[i + 1]` is `stores[i]` once `requests[i]` is created. */
  predicate Trace(stores: seq<Tables>, requests: seq<Ticket>, nows: seq<int>, letters: string)
  {
    && Batch(requests, nows, letters)
    && |stores| == |requests| + 1
    && forall i {:trigger AfterIssue(stores[i], requests[i], nows[i], letters[i])} :: 0 <= i < |requests| ==>
         stores[i + 1] == AfterIssue(stores[i], requests[i], nows[i], letters[i])
  }

  /** Every request of the batch is for one doctor and falls on one day. */
  predicate OneDoctorOneDay(requests: seq<Ticket>, nows: seq<int>, doctorId: Option<int>, day: int)
    requires |nows| == |requests|
  {
    forall i :: 0 <= i < |requests| ==> requests[i].doctorId == doctorId && DateOf(nows[i]) == day
  }

  /** One more ticket for a doctor's day raises the count by one. */
  lemma {:induction false} IssueOne(tables: Tables, t: Ticket, now: int, letter: char, doctorId: Option<int>, day: int)
    requires 'A' <= letter <= 'Z'
    requires t.doctorId == doctorId && DateOf(now) == day
    ensures CountToday(AfterIssue(tables, t, now, letter).tickets, doctorId, day)
         == CountToday(tables.tickets, doctorId, day) + 1
  {
    var after := AfterIssue(tables, t, now, letter).tickets;
    assert after[..|after| - 1] == tables.tickets;
  }

  /** One step of a trace for a batch of one doctor and day: the users stay
      and the doctor's count grows by one. */
  lemma TraceStep(stores: seq<Tables>, requests: seq<Ticket>, nows: seq<int>, letters: string,
                  doctorId: Option<int>, day: int, i: nat)
    requires Trace(stores, requests, nows, letters) && OneDoctorOneDay(requests, nows, doctorId, day)
    requires i < |requests|
    ensures stores[i + 1].users == stores[i].users
    ensures CountToday(stores[i + 1].tickets, doctorId, day) == CountToday(stores[i].tickets, doctorId, day) + 1
  {
    assert stores[i + 1] == AfterIssue(stores[i], requests[i], nows[i], letters[i]);
    IssueOne(stores[i], requests[i], nows[i], letters[i], doctorId, day);
  }

  /** Along a trace the users stay as they were and, for a batch of one
      doctor and day, the doctor's count grows by one per creation. */
  lemma {:induction false} AlongTrace(stores: seq<Tables>, requests: seq<Ticket>, nows: seq<int>, letters: string,
                                      doctorId: Option<int>, day: int, k: nat)
    requires Trace(stores, requests, nows, letters) && OneDoctorOneDay(requests, nows, doctorId, day)
    requires k < |stores|
    ensures stores[k].users == stores[0].users
    ensures CountToday(stores[k].tickets, doctorId, day) == CountToday(stores[0].tickets, doctorId, day) + k
  {
    if k > 0 {
      AlongTrace(stores, requests, nows, letters, doctorId, day, k - 1);
      TraceStep(stores, requests, nows, letters, doctorId, day, k - 1);
    }
  }

  /** A ticket `x` is issued with sequence number `n` when its doctor has
      `n` - 1 tickets that day on the store it is created on. */
  lemma IssuedNumber(tables: Tables, t: Ticket, now: int, letter: char, users: seq<User>, n: nat, x: Ticket)
    requires 'A' <= letter <= 'Z'
    requires x == Issued(tables, t, now, letter)
    requires tables.users == users && CountToday(tables.tickets, t.doctorId, DateOf(now)) + 1 == n
    ensures x.ticketNumber == TicketNumber(letter, RoomPart(DoctorOf(users, t)), SequenceSuffix(n))
  {
  }

  /** The k-th ticket of a batch for one doctor and day carries its
      request's letter, its doctor's room part and sequence count + 1 + k,
      where count is what the doctor had that day before the batch. */
  lemma {:induction false} NumberInBatch(stores: seq<Tables>, requests: seq<Ticket>, nows: seq<int>, letters: string,
                                         doctorId: Option<int>, day: int, k: nat)
    requires Trace(stores, requests, nows, letters) && OneDoctorOneDay(requests, nows, doctorId, day)
    requires k < |requests|
    ensures Issued(stores[k], requests[k], nows[k], letters[k]).ticketNumber
         == TicketNumber(letters[k], RoomPart(DoctorOf(stores[0].users, requests[k])),
                         SequenceSuffix(CountToday(stores[0].tickets, doctorId, day) + 1 + k))
  {
    AlongTrace(stores, requests, nows, letters, doctorId, day, k);
    IssuedNumber(stores[k], requests[k], nows[k], letters[k], stores[0].users,
                 CountToday(stores[0].tickets, doctorId, day) + 1 + k,
                 Issued(stores[k], requests[k], nows[k], letters[k]));
  }

  /** Creating tickets for one doctor on one day numbers them consecutively
      from one past what the doctor already has that day, in creation order. */
  lemma {:induction false} SequentialNumbers(stores: seq<Tables>, requests: seq<Ticket>, nows: seq<int>, letters: string,
                          doctorId: Option<int>, day: int)
    requires Trace(stores, requests, nows, letters) && OneDoctorOneDay(requests, nows, doctorId, day)
    ensures forall k {:trigger Issued(stores[k], requests[k], nows[k], letters[k])} :: 0 <= k < |requests| ==>
      Issued(stores[k], requests[k], nows[k], letters[k]).ticketNumber
        == TicketNumber(letters[k], RoomPart(DoctorOf(stores[0].users, requests[k])),
                        SequenceSuffix(CountToday(stores[0].tickets, doctorId, day) + 1 + k))
  {
    forall k {:trigger Issued(stores[k], requests[k], nows[k], letters[k])} | 0 <= k < |requests| {
      NumberInBatch(stores, requests, nows, letters, doctorId, day, k);
    }
  }

  /** The k-th of a doctor's first tickets of a day carries sequence
      number k + 1. */
  lemma {:induction false} FirstNumberInBatch(stores: seq<Tables>, requests: seq<Ticket>, nows: seq<int>, letters: string,
                                              doctorId: Option<int>, day: int, k: nat)
    requires Trace(stores, requests, nows, letters) && OneDoctorOneDay(requests, nows, doctorId, day)
    requires CountToday(stores[0].tickets, doctorId, day) == 0
    requires k < |requests|
    ensures SequenceOf(Issued(stores[k], requests[k], nows[k], letters[k]).ticketNumber) == Some(k + 1)
  {
    NumberInBatch(stores, requests, nows, letters, doctorId, day, k);
    SequenceReadBack(letters[k], RoomPart(DoctorOf(stores[0].users, requests[k])), k + 1);
  }

  /** In particular, a doctor's first tickets of a day carry the sequence
      numbers 1, 2, ..., N in creation order, and pairwise different ticket
      numbers. */
  lemma {:induction false} FirstTicketsOfTheDay(stores: seq<Tables>, requests: seq<Ticket>, nows: seq<int>, letters: string,
                             doctorId: Option<int>, day: int)
    requires Trace(stores, requests, nows, letters) && OneDoctorOneDay(requests, nows, doctorId, day)
    requires CountToday(stores[0].tickets, doctorId, day) == 0
    ensures forall k {:trigger Issued(stores[k], requests[k], nows[k], letters[k])} :: 0 <= k < |requests| ==>
      SequenceOf(Issued(stores[k], requests[k], nows[k], letters[k]).ticketNumber) == Some(k + 1)
    ensures forall i, j {:trigger Issued(stores[i], requests[i], nows[i], letters[i]), Issued(stores[j], requests[j], nows[j], letters[j])}
      :: 0 <= i < j < |requests| ==>
      Issued(stores[i], requests[i], nows[i], letters[i]).ticketNumber
        != Issued(stores[j], requests[j], nows[j], letters[j]).ticketNumber
  {
    forall k {:trigger Issued(stores[k], requests[k], nows[k], letters[k])} | 0 <= k < |requests| {
      FirstNumberInBatch(stores, requests, nows, letters, doctorId, day, k);
    }
    forall i, j {:trigger Issued(stores[i], requests[i], nows[i], letters[i]), Issued(stores[j], requests[j], nows[j], letters[j])}
      | 0 <= i < j < |requests|
      ensures Issued(stores[i], requests[i], nows[i], letters[i]).ticketNumber
           != Issued(stores[j], requests[j], nows[j], letters[j]).ticketNumber
    {
      FirstNumberInBatch(stores, requests, nows, letters, doctorId, day, i);
      FirstNumberInBatch(stores, requests, nows, letters, doctorId, day, j);
    }
  }

  // ---------------------------------------------------------------- notification

  /** The institution a change of ticket `t` is reported to: its doctor's
      institution when the doctor exists and has one, else the ticket's own. */
  function NotifyInstitutionId(users: seq<User>, t: Ticket): (id: Option<int>)
    ensures DoctorOf(users, t).Some? && DoctorOf(users, t).value.institutionId.Some? ==>
      id == DoctorOf(users, t).value.institutionId
    ensures (DoctorOf(users, t).None? || DoctorOf(users, t).value.institutionId.None?) ==>
      id == t.institutionId
  {
    match DoctorOf(users, t)
    case Some(d) => if d.institutionId.Some? then d.institutionId else t.institutionId
    case None => t.institutionId
  }

  /** The events one change of ticket `t` publishes, the store holding
      `after` once the change is made: exactly one event, for the resolved
      institution, when its id is truthy, and none otherwise. */
  function Notifications(after: Tables, t: Ticket, now: int): (events: seq<QueueUpdated>)
    ensures |events| == (if IsTruthy(NotifyInstitutionId(after.users, t)) then 1 else 0)
    ensures forall e :: e in events ==>
      && Some(e.institutionId) == NotifyInstitutionId(after.users, t)
      && e == NewQueueUpdated(after, e.institutionId, now)
  {
    var id := NotifyInstitutionId(after.users, t);
    if IsTruthy(id) then [NewQueueUpdated(after, id.value, now)] else []
  }

  /** Events for any other institution are never among them. */
  lemma NoOtherInstitutionNotified(after: Tables, t: Ticket, now: int, other: int)
    requires Some(other) != NotifyInstitutionId(after.users, t)
    ensures forall e :: e in Notifications(after, t, now) ==> e.institutionId != other
  {
  }

  // ---------------------------------------------------------------- the store

  /** The tables the queue hooks read and write, with the record of every
      event broadcast so far, oldest first. */
  class Store {
    var institutions: seq<Institution>
    var users: seq<User>
    var tickets: seq<Ticket>
    ghost var published: seq<QueueUpdated>

    function Contents(): Tables
      reads this
    {
      Tables(institutions, users, tickets)
    }

    constructor (institutions: seq<Institution>, users: seq<User>, tickets: seq<Ticket>)
      ensures Contents() == Tables(institutions, users, tickets) && published == []
    {
      this.institutions := institutions;
      this.users := users;
      this.tickets := tickets;
      published := [];
    }

    /** The broadcast a `created`, `updated` or `deleted` hook makes for ticket
        `t`, on the store as it is after the change. */
    method Broadcast(t: Ticket, now: int)
      modifies this`published
      ensures published == old(published) + Notifications(Contents(), t, now)
    {
      var id := NotifyInstitutionId(users, t);
      if IsTruthy(id) {
        published := published + [NewQueueUpdated(Contents(), id.value, now)];
      }
    }

    /** Creates ticket `t` at time `now`, `letter` being the random letter:
        the `creating` hook numbers it, the row is inserted with its creation
        time, and the `created` hook broadcasts. Successive creations thus
        walk a `Trace`. */
    method CreateTicket(t: Ticket, now: int, letter: char) returns (number: string)
      requires 'A' <= letter <= 'Z'
      modifies this
      ensures number == NumberFor(old(Contents()), t, now, letter)
      ensures Contents() == AfterIssue(old(Contents()), t, now, letter)
      ensures published == old(published) + Notifications(Contents(), Issued(old(Contents()), t, now, letter), now)
    {
      var today := DateOf(now);
      var count := CountToday(tickets, t.doctorId, today);
      var room := RoomPart(DoctorOf(users, t));
      var next := SequenceSuffix(count + 1);
      number := TicketNumber(letter, room, next);
      var row := t.(ticketNumber := number, createdAt := now);
      tickets := tickets + [row];
      Broadcast(row, now);
    }

    /** Saves the ticket at position `i` with the values of `changed`. The
        `updated` hook runs only when some column changed, an edit of only
        `otherColumns` (notes, phone, times) included. */
    method UpdateTicket(i: nat, changed: Ticket, now: int)
      requires i < |tickets|
      modifies this
      ensures tickets == old(tickets)[i := changed]
      ensures institutions == old(institutions) && users == old(users)
      ensures published == old(published)
        + (if changed == old(tickets)[i] then [] else Notifications(Contents(), changed, now))
    {
      if changed != tickets[i] {
        tickets := tickets[i := changed];
        Broadcast(changed, now);
      }
    }

    /** Deletes the ticket at position `i`; the `deleted` hook broadcasts for
        the removed ticket on the store without it. */
    method DeleteTicket(i: nat, now: int)
      requires i < |tickets|
      modifies this
      ensures tickets == old(tickets)[..i] + old(tickets)[i + 1..]
      ensures institutions == old(institutions) && users == old(users)
      ensures published == old(published) + Notifications(Contents(), old(tickets)[i], now)
    {
      var removed := tickets[i];
      tickets := tickets[..i] + tickets[i + 1..];
      Broadcast(removed, now);
    }
  }
}
