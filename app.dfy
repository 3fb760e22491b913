/**
 * The mutating branches of the POST handlers of app.py, as methods of one
 * object that owns every table. Each method takes the authenticated caller
 * and the already-parsed form fields, returns an `Outcome` in place of the
 * flash message / redirect / abort, and states the complete new state:
 * which table gained or changed which row, and that nothing else moved.
 */
module App {
  import opened Wrappers
  import opened Text
  import opened Schema
  import opened Access
  import opened Custody
  import opened Queries

  /** The fields of the "add_athlete_session" form as posted (before `strip()`). */
  datatype BookingForm = BookingForm(
    athleteName: string, team: string, weightClass: string, notes: string,
    sessionId: Option<int>, packageId: Option<int>,
    musicLink: string, musicStart: string, musicEnd: string, paid: bool)

  /**
   * Every timestamp in the log and task tables was handed out no later than
   * `clock`, and a card comes back strictly after it went out. The strict
   * order holds because `Store.Now` is a counter that every reading advances;
   * the wall clock of `datetime.utcnow()` promises no such thing.
   */
  ghost predicate TimesBounded(logs: seq<SdCardLog>, tasks: seq<EditTask>, clock: Timestamp) {
    && (forall k :: 0 <= k < |logs| ==>
          && logs[k].checkedOutAt <= clock
          && (logs[k].returnedAt.Some? ==> logs[k].checkedOutAt < logs[k].returnedAt.value <= clock))
    && (forall k :: 0 <= k < |tasks| ==> tasks[k].updatedAt <= clock)
  }

  /** A checkout stamped with the current time keeps every timestamp within the clock. */
  lemma OpenLogKeepsTimes(logs: seq<SdCardLog>, tasks: seq<EditTask>, clock: Timestamp, l: SdCardLog)
    requires TimesBounded(logs, tasks, clock) && l.checkedOutAt == clock && IsOpen(l)
    ensures TimesBounded(logs + [l], tasks, clock)
  {
  }

  /** A return stamped with a time later than the last one keeps every timestamp within the clock. */
  lemma CloseLogKeepsTimes(logs: seq<SdCardLog>, tasks: seq<EditTask>, clock: Timestamp, k: int)
    requires TimesBounded(logs, tasks, clock) && 0 <= k < |logs| && IsOpen(logs[k])
    ensures TimesBounded(logs[k := logs[k].(returnedAt := Some(clock + 1))], tasks, clock + 1)
  {
  }

  /**
   * The partial update of an edit task (app.py 530-533): a blank status or a
   * blank link keeps the old value, a non-blank one replaces it, the time is
   * always refreshed, and the task's booking, assignee and type stay.
   */
  function Revised(t: EditTask, status: string, link: string, now: Timestamp): (t': EditTask)
    ensures t'.bookingId == t.bookingId && t'.assigneeId == t.assigneeId && t'.kind == t.kind
    ensures t'.updatedAt == now
    ensures Strip(status) == "" ==> t'.status == t.status
    ensures Strip(status) != "" ==> t'.status == Strip(status)
    ensures Strip(link) == "" ==> t'.deliverableLink == t.deliverableLink
    ensures Strip(link) != "" ==> t'.deliverableLink == Some(Strip(link))
  {
    var s, l := Strip(status), Strip(link);
    t.(status := if s != "" then s else t.status,
       deliverableLink := if l != "" then Some(l) else t.deliverableLink,
       updatedAt := now)
  }

  /** Posting the same update again changes nothing but the time. */
  lemma RevisedAgain(t: EditTask, status: string, link: string, now: Timestamp, later: Timestamp)
    ensures Revised(Revised(t, status, link, now), status, link, later) == Revised(t, status, link, later)
  {
  }

  /**
   * Marking a pending task "sent_to_client" takes it out of the dashboard's
   * pending count and leaves every other task's contribution as it was.
   */
  lemma DeliveredLeavesPending(tasks: seq<EditTask>, id: int, status: string, link: string, now: Timestamp)
    requires HasId(tasks, id) && IsPending(Row(tasks, id)) && Strip(status) == SentToClient
    ensures PendingEdits(SetRow(tasks, id, Revised(Row(tasks, id), status, link, now))) + 1 == PendingEdits(tasks)
  {
    PendingEditsSet(tasks, id - 1, Revised(Row(tasks, id), status, link, now));
  }

  /** An optional text field: stripped, and absent when blank (`strip() or None`). */
  function OptionalText(s: string): (o: Option<string>)
    ensures o.None? <==> AllSpace(s)
    ensures o.Some? ==> o.value == Strip(s) && o.value != [] && Trimmed(o.value)
  {
    StripSpec(s);
    if Strip(s) == "" then None else Some(Strip(s))
  }

  class Store {
    var users: seq<User>
    var events: seq<Event>
    var sessions: seq<Session>
    var packages: seq<Package>
    var athletes: seq<Athlete>
    var bookings: seq<AthleteSession>
    var cards: seq<SdCard>
    var logs: seq<SdCardLog>
    var allocations: seq<ManpowerAllocation>
    var tasks: seq<EditTask>
    /** The last timestamp handed out. */
    var clock: Timestamp

    /** The database as a value. */
    ghost function Snapshot(): Db
      reads this
    {
      Db(users, events, sessions, packages, athletes, bookings, cards, logs, allocations, tasks)
    }

    /** The properties every handler keeps. */
    ghost predicate Valid()
      reads this
    {
      CardsValid() && UsersValid() && AthletesValid() && TimesValid()
    }

    /** Card custody, and the unique `label` column. */
    ghost predicate CardsValid()
      reads this`cards, this`logs
    {
      CustodyInvariant(cards, logs) && LabelsUnique(cards)
    }

    /** The unique, normalised `email` column. */
    ghost predicate UsersValid()
      reads this`users
    {
      EmailsUnique(users) && EmailsNormal(users)
    }

    /** One athlete per (name, team), and every booking names one of them. */
    ghost predicate AthletesValid()
      reads this`athletes, this`bookings
    {
      AthletesDistinct(athletes) && BookingsHaveAthletes(bookings, athletes)
    }

    ghost predicate TimesValid()
      reads this`logs, this`tasks, this`clock
    {
      TimesBounded(logs, tasks, clock)
    }

    /** A fresh, empty database (`db.create_all()`). */
    constructor ()
      ensures Valid()
      ensures Snapshot() == Db([], [], [], [], [], [], [], [], [], []) && clock == 0
    {
      users, events, sessions, packages, athletes := [], [], [], [], [];
      bookings, cards, logs, allocations, tasks := [], [], [], [], [];
      clock := 0;
      CustodyEmpty();
    }

    /** `datetime.utcnow()`: a reading later than every earlier one. */
    method Now() returns (t: Timestamp)
      requires Valid()
      modifies this`clock
      ensures Valid() && clock == old(clock) + 1 && t == clock
    {
      clock := clock + 1;
      t := clock;
    }

    /** The dashboard figures (app.py 253-255); reads only. */
    method Dashboard() returns (totalCards: nat, inUse: nat, pending: nat)
      requires Valid()
      ensures totalCards == |cards|
      ensures inUse == CheckedOutCount(cards) && inUse == OpenTotal(logs) && inUse <= totalCards
      ensures pending == PendingEdits(tasks)
    {
      InUseEqualsOpenLogs(cards, logs);
      totalCards, inUse, pending := |cards|, CheckedOutCount(cards), PendingEdits(tasks);
    }

    // ------------------------------------------------------------ SD cards

    /** action "add_card" (app.py 275-285): founder only, silently ignored otherwise. */
    method AddCard(actor: Actor, labelField: string, capacityGb: Option<int>) returns (r: Outcome)
      requires Valid()
      modifies this
      ensures Valid()
      ensures r == Ignored <==> !Permits(actor, FounderOnly)
      ensures Permits(actor, FounderOnly) && Strip(labelField) == "" ==> r == Invalid
      ensures Permits(actor, FounderOnly) && Strip(labelField) != "" ==>
                (r == Conflict <==> LabelTaken(old(cards), Strip(labelField)))
      ensures r == Ok <==> Permits(actor, FounderOnly) && Strip(labelField) != "" && !LabelTaken(old(cards), Strip(labelField))
      ensures r == Ok ==>
                && clock == old(clock)
                && Snapshot() == old(Snapshot()).(cards := old(cards) + [SdCard(Strip(labelField), capacityGb, Available)])
      ensures r != Ok ==> unchanged(this)
    {
      if !Permits(actor, FounderOnly) {
        return Ignored;
      }
      var text := Strip(labelField);
      if text == "" {
        return Invalid;
      }
      if LabelTaken(cards, text) {
        return Conflict;
      }
      var card := SdCard(text, capacityGb, Available);
      AddCardKeepsCustody(cards, logs, card);
      AddCardKeepsLabels(cards, card);
      cards := cards + [card];
      r := Ok;
    }

    /**
     * action "checkout" (app.py 287-307): any signed-in user may take a card,
     * but only one whose status is exactly "available".
     */
    method Checkout(actor: Actor, cardId: Option<int>, eventId: Option<int>, sessionId: Option<int>, purpose: string)
      returns (r: Outcome)
      requires Valid()
      modifies this
      ensures Valid()
      ensures r == Ok || r == NotAvailable
      ensures r == Ok <==> cardId.Some? && HasId(old(cards), cardId.value) && Row(old(cards), cardId.value).status == Available
      ensures r == Ok ==>
                && clock == old(clock) + 1
                && Snapshot() == old(Snapshot()).(
                     cards := SetRow(old(cards), cardId.value, Row(old(cards), cardId.value).(status := CheckedOut)),
                     logs := old(logs) + [SdCardLog(cardId.value, actor.id, eventId, sessionId, purpose, clock, None)])
      ensures r == NotAvailable ==> unchanged(this)
    {
      if cardId.None? || !HasId(cards, cardId.value) || Row(cards, cardId.value).status != Available {
        return NotAvailable;
      }
      var id := cardId.value;
      var now := Now();
      var log := SdCardLog(id, actor.id, eventId, sessionId, purpose, now, None);
      CheckoutKeepsCustody(cards, logs, id, log);
      RestatusKeepsLabels(cards, id, CheckedOut);
      OpenLogKeepsTimes(logs, tasks, clock, log);
      cards := SetRow(cards, id, Row(cards, id).(status := CheckedOut));
      logs := logs + [log];
      r := Ok;
    }

    /**
     * action "return" (app.py 309-319): closes an open log row and makes its
     * card available. Nobody's role or identity is checked.
     */
    method Return(logId: Option<int>) returns (r: Outcome)
      requires Valid()
      modifies this
      ensures Valid()
      ensures r == Ok || r == NotFound
      ensures r == Ok <==> logId.Some? && HasId(old(logs), logId.value) && IsOpen(Row(old(logs), logId.value))
      ensures r == Ok ==>
                var l := Row(old(logs), logId.value);
                && HasId(old(cards), l.cardId) && Row(old(cards), l.cardId).status == CheckedOut
                && clock == old(clock) + 1
                && Snapshot() == old(Snapshot()).(
                     logs := SetRow(old(logs), logId.value, l.(returnedAt := Some(clock))),
                     cards := SetRow(old(cards), l.cardId, Row(old(cards), l.cardId).(status := Available)))
      ensures r == NotFound ==> unchanged(this)
    {
      if logId.None? || !HasId(logs, logId.value) || !IsOpen(Row(logs, logId.value)) {
        return NotFound;
      }
      var id := logId.value;
      CloseLogKeepsTimes(logs, tasks, clock, id - 1);
      var now := Now();
      var l := Row(logs, id);
      ReturnKeepsCustody(cards, logs, id - 1, now);
      RestatusKeepsLabels(cards, l.cardId, Available);
      logs := SetRow(logs, id, l.(returnedAt := Some(now)));
      cards := SetRow(cards, l.cardId, Row(cards, l.cardId).(status := Available));
      r := Ok;
    }

    // ------------------------------------------------------------ athletes

    /**
     * action "add_athlete_session" (app.py 348-390): founder only. The athlete
     * is looked up by (name, team) and reused if found (its weight class and
     * notes are left as they were), created otherwise; a booking is always added.
     */
    method BookAthlete(actor: Actor, form: BookingForm) returns (r: Outcome)
      requires Valid()
      modifies this
      ensures Valid() && clock == old(clock)
      ensures r == Ignored <==> !Permits(actor, FounderOnly)
      ensures Permits(actor, FounderOnly) ==>
                (r == Ok <==> Strip(form.athleteName) != "" && form.sessionId.Some? && form.packageId.Some?)
      ensures r != Ok ==> (r == Ignored || r == Invalid) && unchanged(this)
      ensures r == Ok ==>
                var name, team := Strip(form.athleteName), Strip(form.team);
                var enrolled := EnsureAthlete(old(athletes), Athlete(name, team, Strip(form.weightClass), Strip(form.notes)));
                Snapshot() == old(Snapshot()).(
                  athletes := enrolled.0,
                  bookings := old(bookings) + [AthleteSession(
                    enrolled.1, form.sessionId.value, form.packageId.value,
                    Strip(form.musicLink), Strip(form.musicStart), Strip(form.musicEnd),
                    form.paid, Strip(form.notes))])
    {
      if !Permits(actor, FounderOnly) {
        return Ignored;
      }
      var name := Strip(form.athleteName);
      if !(name != "" && form.sessionId.Some? && form.packageId.Some?) {
        return Invalid;
      }
      var team := Strip(form.team);
      var notes := Strip(form.notes);
      var (athletes', athleteId) := EnsureAthlete(athletes, Athlete(name, team, Strip(form.weightClass), notes));
      var booking := AthleteSession(
        athleteId, form.sessionId.value, form.packageId.value,
        Strip(form.musicLink), Strip(form.musicStart), Strip(form.musicEnd),
        form.paid, notes);
      AddBookingKeepsAthletes(bookings, athletes, athletes', booking);
      athletes, bookings := athletes', bookings + [booking];
      r := Ok;
    }

    /**
     * Two bookings of the same (name, team): at most one athlete row is
     * added, two booking rows are, and both name the same athlete.
     */
    method BookTwice(actor: Actor, form: BookingForm, again: BookingForm) returns (first: Outcome, second: Outcome)
      requires Valid()
      requires Strip(again.athleteName) == Strip(form.athleteName) && Strip(again.team) == Strip(form.team)
      requires again.sessionId.Some? && again.packageId.Some?
      modifies this
      ensures Valid()
      ensures first == Ok ==>
                && second == Ok
                && |old(athletes)| <= |athletes| <= |old(athletes)| + 1
                && |bookings| == |old(bookings)| + 2
                && bookings[|bookings| - 1].athleteId == bookings[|bookings| - 2].athleteId
    {
      var before := athletes;
      first := BookAthlete(actor, form);
      second := BookAthlete(actor, again);
      if first == Ok {
        var name, team := Strip(form.athleteName), Strip(form.team);
        EnsureAthleteAgain(before, Athlete(name, team, Strip(form.weightClass), Strip(form.notes)),
                           Athlete(name, team, Strip(again.weightClass), Strip(again.notes)));
      }
    }

    // ------------------------------------------------------------ manpower

    /** The manpower form (app.py 451-470): founder only; event, session, user and role are required. */
    method AllocateManpower(actor: Actor, eventId: Option<int>, sessionId: Option<int>, userId: Option<int>,
                            role: string, notes: string) returns (r: Outcome)
      requires Valid()
      modifies this
      ensures Valid() && clock == old(clock)
      ensures r == Ignored <==> !Permits(actor, FounderOnly)
      ensures Permits(actor, FounderOnly) ==>
                (r == Ok <==> Supplied(eventId) && Supplied(sessionId) && Supplied(userId) && Strip(role) != "")
      ensures r != Ok ==> (r == Ignored || r == Invalid) && unchanged(this)
      ensures r == Ok ==>
                Snapshot() == old(Snapshot()).(allocations := old(allocations) + [ManpowerAllocation(
                  eventId.value, sessionId.value, userId.value, Strip(role), Strip(notes))])
    {
      if !Permits(actor, FounderOnly) {
        return Ignored;
      }
      var text := Strip(role);
      if !(Supplied(eventId) && Supplied(sessionId) && Supplied(userId) && text != "") {
        return Invalid;
      }
      allocations := allocations + [ManpowerAllocation(eventId.value, sessionId.value, userId.value, text, Strip(notes))];
      r := Ok;
    }

    // ------------------------------------------------------------ edit tasks

    /** action "add_task" (app.py 502-517): founder only; the task starts "not_started" with no link. */
    method AddTask(actor: Actor, bookingId: Option<int>, assigneeId: Option<int>, kind: string) returns (r: Outcome)
      requires Valid()
      modifies this
      ensures Valid()
      ensures r == Ignored <==> !Permits(actor, FounderOnly)
      ensures Permits(actor, FounderOnly) ==> (r == Ok <==> Supplied(bookingId) && Supplied(assigneeId) && Strip(kind) != "")
      ensures r != Ok ==> (r == Ignored || r == Invalid) && unchanged(this)
      ensures r == Ok ==>
                && clock == old(clock) + 1
                && Snapshot() == old(Snapshot()).(tasks := old(tasks) + [EditTask(
                     bookingId.value, assigneeId.value, Strip(kind), NotStarted, None, clock)])
      ensures r == Ok ==> PendingEdits(tasks) == PendingEdits(old(tasks)) + 1
    {
      if !Permits(actor, FounderOnly) {
        return Ignored;
      }
      var text := Strip(kind);
      if !(Supplied(bookingId) && Supplied(assigneeId) && text != "") {
        return Invalid;
      }
      var now := Now();
      var t := EditTask(bookingId.value, assigneeId.value, text, NotStarted, None, now);
      PendingEditsAppend(tasks, t);
      tasks := tasks + [t];
      r := Ok;
    }

    /**
     * action "update_status" (app.py 519-535): a missing task is reported
     * first; then only the founder or the task's assignee may go on; then the
     * partial update of `Revised` is applied.
     */
    method UpdateTask(actor: Actor, taskId: Option<int>, status: string, link: string) returns (r: Outcome)
      requires Valid()
      modifies this
      ensures Valid()
      ensures r == Ok || r == NotFound || r == Forbidden
      ensures r == NotFound <==> !(taskId.Some? && HasId(old(tasks), taskId.value))
      ensures r == Forbidden <==>
                taskId.Some? && HasId(old(tasks), taskId.value)
                && !Permits(actor, FounderOrAssignee(Row(old(tasks), taskId.value).assigneeId))
      ensures r != Ok ==> unchanged(this)
      ensures r == Ok ==>
                && clock == old(clock) + 1
                && Snapshot() == old(Snapshot()).(
                     tasks := SetRow(old(tasks), taskId.value, Revised(Row(old(tasks), taskId.value), status, link, clock)))
    {
      if taskId.None? || !HasId(tasks, taskId.value) {
        return NotFound;
      }
      var id := taskId.value;
      var t := Row(tasks, id);
      if !Permits(actor, FounderOrAssignee(t.assigneeId)) {
        return Forbidden;
      }
      var now := Now();
      tasks := SetRow(tasks, id, Revised(t, status, link, now));
      r := Ok;
    }

    // ------------------------------------------------------------ events, sessions, packages

    /**
     * action "add_event" (app.py 579-607, behind `founder_required`): both
     * dates are parsed before the name is checked.
     */
    method AddEvent(actor: Actor, name: string, dateStart: string, dateEnd: string, location: string,
                    parse: string -> Option<Date>) returns (r: Outcome)
      requires Valid()
      modifies this
      ensures Valid() && clock == old(clock)
      ensures r == Forbidden <==> !Permits(actor, FounderOnly)
      ensures Permits(actor, FounderOnly) ==>
                (r == InvalidDate <==> parse(Strip(dateStart)).None? || parse(Strip(dateEnd)).None?)
      ensures r == Ok <==>
                Permits(actor, FounderOnly) && parse(Strip(dateStart)).Some? && parse(Strip(dateEnd)).Some? && Strip(name) != ""
      ensures r != Ok ==> (r == Forbidden || r == InvalidDate || r == Invalid) && unchanged(this)
      ensures r == Ok ==>
                Snapshot() == old(Snapshot()).(events := old(events) + [Event(
                  Strip(name), parse(Strip(dateStart)).value, parse(Strip(dateEnd)).value, Strip(location))])
    {
      if !Permits(actor, FounderOnly) {
        return Forbidden;
      }
      var start := parse(Strip(dateStart));
      var end := parse(Strip(dateEnd));
      if start.None? || end.None? {
        return InvalidDate;
      }
      var text := Strip(name);
      if text == "" {
        return Invalid;
      }
      events := events + [Event(text, start.value, end.value, Strip(location))];
      r := Ok;
    }

    /**
     * action "add_session" (app.py 609-633, behind `founder_required`): the
     * required fields are checked before the date is parsed; a blank time
     * block is stored as no time block.
     */
    method AddSession(actor: Actor, eventId: Option<int>, labelField: string, date: string, timeBlock: string,
                      parse: string -> Option<Date>) returns (r: Outcome)
      requires Valid()
      modifies this
      ensures Valid() && clock == old(clock)
      ensures r == Forbidden <==> !Permits(actor, FounderOnly)
      ensures Permits(actor, FounderOnly) ==>
                (r == Invalid <==> !(Supplied(eventId) && Strip(labelField) != "" && Strip(date) != ""))
      ensures r == Ok <==>
                Permits(actor, FounderOnly) && Supplied(eventId) && Strip(labelField) != "" && Strip(date) != ""
                && parse(Strip(date)).Some?
      ensures r != Ok ==> (r == Forbidden || r == Invalid || r == InvalidDate) && unchanged(this)
      ensures r == Ok ==>
                Snapshot() == old(Snapshot()).(sessions := old(sessions) + [Session(
                  eventId.value, Strip(labelField), parse(Strip(date)).value,
                  OptionalText(timeBlock))])
    {
      if !Permits(actor, FounderOnly) {
        return Forbidden;
      }
      var text, day := Strip(labelField), Strip(date);
      if !(Supplied(eventId) && text != "" && day != "") {
        return Invalid;
      }
      var parsed := parse(day);
      if parsed.None? {
        return InvalidDate;
      }
      sessions := sessions + [Session(eventId.value, text, parsed.value, OptionalText(timeBlock))];
      r := Ok;
    }

    /** The package form (app.py 646-660, behind `founder_required`): a name is required. */
    method AddPackage(actor: Actor, name: string, description: string) returns (r: Outcome)
      requires Valid()
      modifies this
      ensures Valid() && clock == old(clock)
      ensures r == Forbidden <==> !Permits(actor, FounderOnly)
      ensures r == Ok <==> Permits(actor, FounderOnly) && Strip(name) != ""
      ensures r != Ok ==> (r == Forbidden || r == Invalid) && unchanged(this)
      ensures r == Ok ==>
                Snapshot() == old(Snapshot()).(packages := old(packages) + [Package(Strip(name), Strip(description))])
    {
      if !Permits(actor, FounderOnly) {
        return Forbidden;
      }
      var text := Strip(name);
      if text == "" {
        return Invalid;
      }
      packages := packages + [Package(text, Strip(description))];
      r := Ok;
    }

    // ------------------------------------------------------------ users

    /**
     * action "add_user" (app.py 679-697, behind `founder_required`): name,
     * e-mail and password are required, the e-mail is normalised, and an
     * e-mail already in the table is refused. The role field is not checked;
     * when it is absent the user becomes a freelancer. The password is stored
     * as `hash(password)`.
     */
    method AddUser(actor: Actor, name: string, email: string, password: string, role: Option<string>, active: bool,
                   hash: string -> string) returns (r: Outcome)
      requires Valid()
      modifies this
      ensures Valid() && clock == old(clock)
      ensures r == Forbidden <==> !Permits(actor, FounderOnly)
      ensures Permits(actor, FounderOnly) ==>
                (r == Invalid <==> Strip(name) == "" || NormalizeEmail(email) == "" || password == "")
      ensures r == Conflict <==>
                Permits(actor, FounderOnly) && Strip(name) != "" && NormalizeEmail(email) != "" && password != ""
                && exists k :: 0 <= k < |old(users)| && old(users)[k].email == NormalizeEmail(email)
      ensures r == Ok || r == Forbidden || r == Invalid || r == Conflict
      ensures r != Ok ==> unchanged(this)
      ensures r == Ok ==>
                Snapshot() == old(Snapshot()).(users := old(users) + [User(
                  Strip(name), NormalizeEmail(email), hash(password), role.GetOr(Freelancer), active)])
    {
      if !Permits(actor, FounderOnly) {
        return Forbidden;
      }
      var text, address := Strip(name), NormalizeEmail(email);
      if !(text != "" && address != "" && password != "") {
        return Invalid;
      }
      if FindUserByEmail(users, address).Some? {
        return Conflict;
      }
      NormalizeEmailIdempotent(email);
      users := users + [User(text, address, hash(password), role.GetOr(Freelancer), active)];
      r := Ok;
    }

    /** action "toggle_active" (app.py 699-707, behind `founder_required`): flips the user's active flag. */
    method ToggleActive(actor: Actor, userId: Option<int>) returns (r: Outcome)
      requires Valid()
      modifies this
      ensures Valid() && clock == old(clock)
      ensures r == Forbidden <==> !Permits(actor, FounderOnly)
      ensures Permits(actor, FounderOnly) ==> (r == NotFound <==> !(userId.Some? && HasId(old(users), userId.value)))
      ensures r == Ok || r == Forbidden || r == NotFound
      ensures r != Ok ==> unchanged(this)
      ensures r == Ok ==>
                var u := Row(old(users), userId.value);
                Snapshot() == old(Snapshot()).(users := SetRow(old(users), userId.value, u.(active := !u.active)))
    {
      if !Permits(actor, FounderOnly) {
        return Forbidden;
      }
      if userId.None? || !HasId(users, userId.value) {
        return NotFound;
      }
      var u := Row(users, userId.value);
      users := SetRow(users, userId.value, u.(active := !u.active));
      r := Ok;
    }

    /** Toggling the same user twice restores the database. */
    method ToggleTwice(actor: Actor, userId: Option<int>) returns (first: Outcome, second: Outcome)
      requires Valid()
      modifies this
      ensures Valid()
      ensures first == second
      ensures Snapshot() == old(Snapshot()) && clock == old(clock)
    {
      ghost var before := users;
      first := ToggleActive(actor, userId);
      second := ToggleActive(actor, userId);
      if first == Ok {
        assert forall k :: 0 <= k < |users| ==> users[k] == before[k];
      }
    }

    /**
     * action "change_role" (app.py 709-718, behind `founder_required`): only
     * "founder" and "freelancer" are accepted, and only for an existing user.
     */
    method ChangeRole(actor: Actor, userId: Option<int>, newRole: string) returns (r: Outcome)
      requires Valid()
      modifies this
      ensures Valid() && clock == old(clock)
      ensures r == Forbidden <==> !Permits(actor, FounderOnly)
      ensures r == Ok <==>
                Permits(actor, FounderOnly) && userId.Some? && HasId(old(users), userId.value)
                && (Strip(newRole) == Founder || Strip(newRole) == Freelancer)
      ensures r == Ok || r == Forbidden || r == Invalid
      ensures r != Ok ==> unchanged(this)
      ensures r == Ok ==>
                Snapshot() == old(Snapshot()).(
                  users := SetRow(old(users), userId.value, Row(old(users), userId.value).(role := Strip(newRole))))
    {
      if !Permits(actor, FounderOnly) {
        return Forbidden;
      }
      var text := Strip(newRole);
      if !(userId.Some? && HasId(users, userId.value) && (text == Founder || text == Freelancer)) {
        return Invalid;
      }
      users := SetRow(users, userId.value, Row(users, userId.value).(role := text));
      r := Ok;
    }
  }
}
